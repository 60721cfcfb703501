/** Properties of individual handlers that callers of the facade observe:
    which error wins when several things are wrong, how Copy chooses what to
    copy, the fixed envelopes of GetMeta and SaveFile, and the message of a
    missing bucket name. */
module HandlerProperties {
  import opened JsValues
  import opened Errors
  import opened Collaborators
  import opened FirebaseStorageApi
  import opened CheckOrder
  import opened HandlerPlans

  /** A missing bucket name is reported exactly as a missing body property
      named 'bucketname' would be, before storage is asked anything, and
      without the "Error retrieving bucket: " prefix. */
  lemma MissingBucketNameIsPropertyError(body: Body, env: Env)
    ensures !Truthy(Prop(body, "bucketname")) ==>
              && GetBucket(Prop(body, "bucketname"), env) ==
                   Resolution(Failure(CheckHasBodyProp(body, "bucketname").value), [])
              && MissingField(GetBucket(Prop(body, "bucketname"), env).result.error.message) == Some("bucketname")
              && !(BucketErrorPrefix <= GetBucket(Prop(body, "bucketname"), env).result.error.message)
  {
    var m := MissingProperty("bucketname").message;
    assert m[0] == MissingPropertyPrefix[0] == 'R';
    assert BucketErrorPrefix[0] == 'E';
  }

  /** A bucket the backend reports absent (the first element of the
      existence answer is falsy, or the answer is empty) fails with the
      "doesn't exist" message naming the bucket, behind the bucket prefix.
      When the name cannot be converted to a string, building that message
      throws, and the TypeError is what gets the prefix. */
  lemma AbsentBucketMessage(name: JsValue, env: Env)
    ensures Truthy(name) && env.bucketExists(name).Replied? && !Truthy(Head(env.bucketExists(name).values)) &&
            !ConversionThrows(name) ==>
              GetBucket(name, env) ==
                Resolution(Failure(Error(BucketErrorPrefix + "bucket: \"" + DisplayString(name).value +
                                         "\" doesn't exist, please create it first")),
                           [ExistsCheck(name)])
    ensures Truthy(name) && env.bucketExists(name).Replied? && !Truthy(Head(env.bucketExists(name).values)) &&
            ConversionThrows(name) ==>
              GetBucket(name, env) ==
                Resolution(Failure(Error(BucketErrorPrefix + ConversionFailure.message)),
                           [ExistsCheck(name)])
  {
    var front, tail := BucketErrorPrefix + "bucket: \"", "\" doesn't exist, please create it first";
    match DisplayString(name)
    case Some(shown) =>
      assert BucketMissing(name).message == "bucket: \"" + shown + tail;
      assert BucketErrorPrefix + ("bucket: \"" + shown + tail) == front + shown + tail;
    case None =>
  }

  /** A name that cannot be rendered: an object carrying its own `toString`
      property, as a JSON body can. */
  lemma ObjectNameWithOwnToString(env: Env)
    requires env.bucketExists(Obj(map["toString" := Str("x")])) == Replied([])
    ensures GetBucket(Obj(map["toString" := Str("x")]), env).result ==
              Failure(Error(BucketErrorPrefix + ConversionFailure.message))
  {
    var name := Obj(map["toString" := Str("x")]);
    assert ConversionThrows(name);
    AbsentBucketMessage(name, env);
  }

  /** Rename checks `item`, then `newItemPath`, and only then the bucket:
      a body problem wins over any bucket problem, and storage is not asked. */
  lemma RenameChecksBodyBeforeBucket(body: Body, claims: JsValue, env: Env)
    ensures !Truthy(Prop(body, "item")) ==>
              HandleRename(body, claims, env) == Response(Err(WithCause(MissingProperty("item"))), [])
    ensures Truthy(Prop(body, "item")) && !Truthy(Prop(body, "newItemPath")) ==>
              HandleRename(body, claims, env) == Response(Err(WithCause(MissingProperty("newItemPath"))), [])
    ensures Truthy(Prop(body, "item")) && Truthy(Prop(body, "newItemPath")) &&
            GetBucket(Prop(body, "bucketname"), env).result.Failure? ==>
              HandleRename(body, claims, env).outcome ==
                Err(WithCause(GetBucket(Prop(body, "bucketname"), env).result.error))
  {
  }

  /** Move resolves the bucket before it looks at the body: a bucket problem
      wins over missing `items` or `newPath`. */
  lemma MoveChecksBucketBeforeBody(body: Body, claims: JsValue, env: Env)
    ensures var b := GetBucket(Prop(body, "bucketname"), env);
            b.result.Failure? ==>
              HandleMove(body, claims, env) == Response(Err(WithCause(b.result.error)), b.effects)
    ensures var b := GetBucket(Prop(body, "bucketname"), env);
            b.result.Success? && !Truthy(Prop(body, "items")) ==>
              HandleMove(body, claims, env) == Response(Err(WithCause(MissingProperty("items"))), b.effects)
    ensures var b := GetBucket(Prop(body, "bucketname"), env);
            b.result.Success? && Truthy(Prop(body, "items")) && !Truthy(Prop(body, "newPath")) ==>
              HandleMove(body, claims, env) == Response(Err(WithCause(MissingProperty("newPath"))), b.effects)
  {
  }

  /** One request shows the two orders apart: a body naming a bucket the
      backend reports absent and carrying nothing else. Move reports the
      bucket after asking storage; Remove reports the missing `items` without
      asking. */
  lemma MoveAndRemoveDisagreeOnFirstError(claims: JsValue, env: Env)
    requires env.bucketExists(Str("photos")) == Replied([Bool(false)])
    ensures var body := map["bucketname" := Str("photos")];
            && HandleMove(body, claims, env) ==
                 Response(Err(WithCause(BucketUnavailable(BucketMissing(Str("photos"))))),
                          [ExistsCheck(Str("photos"))])
            && HandleRemove(body, claims, env) ==
                 Response(Err(WithCause(MissingProperty("items"))), [])
  {
  }

  /** Copy checks `newPath` and the bucket, then copies `items` when truthy
      (whatever `singleFileName` holds), else the one-element list of a
      truthy `singleFileName`, else fails after the bucket check without
      calling any command. */
  lemma CopySelectionRule(body: Body, claims: JsValue, env: Env)
    ensures var bn, newPath := Prop(body, "bucketname"), Prop(body, "newPath");
            var items, single := Prop(body, "items"), Prop(body, "singleFileName");
            var ready := Truthy(newPath) && GetBucket(bn, env).result.Success?;
            && (ready && Truthy(items) ==>
                  HandleCopy(body, claims, env).effects ==
                    [ExistsCheck(bn), Invoke(CopyFiles(Bucket(bn), items, newPath, claims))])
            && (ready && !Truthy(items) && Truthy(single) ==>
                  HandleCopy(body, claims, env).effects ==
                    [ExistsCheck(bn), Invoke(CopyFiles(Bucket(bn), Arr([single]), newPath, claims))])
            && (ready && !Truthy(items) && !Truthy(single) ==>
                  HandleCopy(body, claims, env) == Response(Err(WithCause(NoCopySource)), [ExistsCheck(bn)]))
  {
  }

  /** GetMeta resolves exactly when its checks pass and the command returns,
      and then reports `success: true` beside whatever the command returned
      as the URL. */
  lemma GetMetaEnvelope(body: Body, claims: JsValue, env: Env)
    ensures var call := GetFileMeta(BodyBucket(body), Prop(body, "item"), claims);
            var r := HandleGetMeta(body, claims, env);
            && (r.outcome.Ok? <==>
                  Truthy(Prop(body, "item")) && GetBucket(Prop(body, "bucketname"), env).result.Success? &&
                  env.run(call).Returned?)
            && (r.outcome.Ok? ==>
                  r.outcome.envelope ==
                    Obj(map["result" := Obj(map["success" := Bool(true), "url" := env.run(call).value])]))
  {
  }

  /** SaveFile checks nothing but the bucket and acknowledges every completed
      upload with `{ result: { success: true } }`, dropping what the upload
      returned. */
  lemma SaveFileEnvelope(bucketname: JsValue, directoryPath: JsValue, originalname: JsValue,
                         mimetype: JsValue, buffer: JsValue, claims: JsValue, env: Env)
    ensures var call := UploadFile(Bucket(bucketname), directoryPath, originalname, mimetype, buffer, claims);
            var r := HandleSaveFile(bucketname, directoryPath, originalname, mimetype, buffer, claims, env);
            && (r.outcome.Ok? <==> GetBucket(bucketname, env).result.Success? && env.run(call).Returned?)
            && (r.outcome.Ok? ==> r.outcome.envelope == Obj(map["result" := Obj(map["success" := Bool(true)])]))
  {
  }

  /** SetPermissions rethrows the very message the other handlers chain as a
      cause, but not the cause itself. */
  lemma SetPermissionsDropsCause(body: Body, claims: JsValue, env: Env)
    ensures var r := HandleSetPermissions(body, claims, env);
            && (!Truthy(Prop(body, "items")) ==>
                  r == Response(Err(MessageOnly(MissingProperty("items").message)), []))
            && (r.outcome.Err? ==> r.outcome.error.MessageOnly?)
            && (var call := ChangePermissions(BodyBucket(body), Prop(body, "items"), Prop(body, "role"),
                                              Prop(body, "entity"), Prop(body, "recursive"), claims);
                r.outcome.Err? && Invoke(call) in r.effects ==>
                  r.outcome.error == MessageOnly(env.run(call).error.message))
  {
  }
}
