/** Each handler of the facade answers as the reference semantics of its plan
    does, and the consequences the facade's callers can rely on: which error
    wins, how Copy picks its files, and the fixed envelopes of GetMeta and
    SaveFile. */
module HandlerPlans {
  import opened JsValues
  import opened Errors
  import opened Collaborators
  import opened FirebaseStorageApi
  import opened CheckOrder

  /** The context of a request whose bucket name comes from its body. */
  function BodyCtx(body: Body, env: Env): Ctx
  {
    Ctx(body, Prop(body, "bucketname"), env)
  }

  /** The bucket handle a request resolves to when its bucket exists. */
  function BodyBucket(body: Body): Bucket
  {
    Bucket(Prop(body, "bucketname"))
  }

  /** The calls a plan makes before the check at `n`, unfolded for every
      prefix of the plan. */
  lemma EffectsOfPlan(plan: seq<Check>, ctx: Ctx, k: int)
    requires ResolvesBucketOnlyAt(plan, k)
    ensures forall n :: 0 <= n <= |plan| ==>
              EffectsThrough(plan, ctx, n) ==
                (if n <= k then [] else GetBucket(ctx.bucketname, ctx.env).effects)
  {
    forall n | 0 <= n <= |plan|
      ensures EffectsThrough(plan, ctx, n) ==
                (if n <= k then [] else GetBucket(ctx.bucketname, ctx.env).effects)
    {
      EffectsThroughOneBucket(plan, ctx, k, n);
    }
  }

  lemma ListFollowsPlan(body: Body, claims: JsValue, env: Env)
    ensures HandleList(body, claims, env) ==
            Reference(ListPlan, BodyCtx(body, env),
                      GetList(BodyBucket(body), Prop(body, "path"), claims), Plain, ChainCause)
  {
    EffectsOfPlan(ListPlan, BodyCtx(body, env), 1);
  }

  lemma RenameFollowsPlan(body: Body, claims: JsValue, env: Env)
    ensures HandleRename(body, claims, env) ==
            Reference(RenamePlan, BodyCtx(body, env),
                      RenameFile(BodyBucket(body), Prop(body, "item"), Prop(body, "newItemPath"), claims),
                      Plain, ChainCause)
  {
    EffectsOfPlan(RenamePlan, BodyCtx(body, env), 2);
  }

  lemma MoveFollowsPlan(body: Body, claims: JsValue, env: Env)
    ensures HandleMove(body, claims, env) ==
            Reference(MovePlan, BodyCtx(body, env),
                      MoveFiles(BodyBucket(body), Prop(body, "items"), Prop(body, "newPath"), claims),
                      Plain, ChainCause)
  {
    EffectsOfPlan(MovePlan, BodyCtx(body, env), 0);
  }

  /** The files Copy hands to the command once its selection check passed. */
  function CopySelection(body: Body): JsValue
  {
    if Truthy(Prop(body, "items")) then Prop(body, "items") else Arr([Prop(body, "singleFileName")])
  }

  lemma CopyFollowsPlan(body: Body, claims: JsValue, env: Env)
    ensures HandleCopy(body, claims, env) ==
            Reference(CopyPlan, BodyCtx(body, env),
                      CopyFiles(BodyBucket(body), CopySelection(body), Prop(body, "newPath"), claims),
                      Plain, ChainCause)
  {
    EffectsOfPlan(CopyPlan, BodyCtx(body, env), 1);
  }

  lemma RemoveFollowsPlan(body: Body, claims: JsValue, env: Env)
    ensures HandleRemove(body, claims, env) ==
            Reference(RemovePlan, BodyCtx(body, env),
                      RemoveFiles(BodyBucket(body), Prop(body, "items"), claims), Plain, ChainCause)
  {
    EffectsOfPlan(RemovePlan, BodyCtx(body, env), 1);
  }

  lemma EditFollowsPlan(body: Body, claims: JsValue, env: Env)
    ensures HandleEdit(body, claims, env) ==
            Reference(EditPlan, BodyCtx(body, env),
                      EditFile(BodyBucket(body), Prop(body, "item"), Prop(body, "content"), claims),
                      Plain, ChainCause)
  {
    EffectsOfPlan(EditPlan, BodyCtx(body, env), 2);
  }

  lemma GetContentFollowsPlan(body: Body, claims: JsValue, env: Env)
    ensures HandleGetContent(body, claims, env) ==
            Reference(GetContentPlan, BodyCtx(body, env),
                      GetFileContent(BodyBucket(body), Prop(body, "item"), claims), Plain, ChainCause)
  {
    EffectsOfPlan(GetContentPlan, BodyCtx(body, env), 1);
  }

  lemma GetMetaFollowsPlan(body: Body, claims: JsValue, env: Env)
    ensures HandleGetMeta(body, claims, env) ==
            Reference(GetMetaPlan, BodyCtx(body, env),
                      GetFileMeta(BodyBucket(body), Prop(body, "item"), claims), MetaUrl, ChainCause)
  {
    EffectsOfPlan(GetMetaPlan, BodyCtx(body, env), 1);
  }

  lemma CreateFolderFollowsPlan(body: Body, claims: JsValue, env: Env)
    ensures HandleCreateFolder(body, claims, env) ==
            Reference(CreateFolderPlan, BodyCtx(body, env),
                      CreateFolder(BodyBucket(body), Prop(body, "newPath"), claims), Plain, ChainCause)
  {
    EffectsOfPlan(CreateFolderPlan, BodyCtx(body, env), 1);
  }

  lemma SetPermissionsFollowsPlan(body: Body, claims: JsValue, env: Env)
    ensures HandleSetPermissions(body, claims, env) ==
            Reference(SetPermissionsPlan, BodyCtx(body, env),
                      ChangePermissions(BodyBucket(body), Prop(body, "items"), Prop(body, "role"),
                                        Prop(body, "entity"), Prop(body, "recursive"), claims),
                      Plain, KeepMessage)
  {
    var ctx := BodyCtx(body, env);
    EffectsOfPlan(SetPermissionsPlan, ctx, 3);
    if Truthy(Prop(body, "items")) && Truthy(Prop(body, "role")) && Truthy(Prop(body, "entity")) {
      assert FirstFailure(SetPermissionsPlan, ctx, 0) == FirstFailure(SetPermissionsPlan, ctx, 3);
    }
  }

  lemma SaveFileFollowsPlan(bucketname: JsValue, directoryPath: JsValue, originalname: JsValue,
                            mimetype: JsValue, buffer: JsValue, claims: JsValue, env: Env)
    ensures HandleSaveFile(bucketname, directoryPath, originalname, mimetype, buffer, claims, env) ==
            Reference(SaveFilePlan, Ctx(map[], bucketname, env),
                      UploadFile(Bucket(bucketname), directoryPath, originalname, mimetype, buffer, claims),
                      UploadAck, ChainCause)
  {
    EffectsOfPlan(SaveFilePlan, Ctx(map[], bucketname, env), 0);
  }
}
