/** The request-validation and dispatch facade `NgxFileMangerApiFireBaseClass`
    (firebase-storage-api.ts). Every handler is one linear pipeline that stops
    at the first failure: check the required body properties, resolve the
    named bucket, call exactly one command, and wrap the command's value in a
    `{ result: ... }` envelope or rethrow what went wrong.

    A handler is a pure function of the request and of an `Env` fixing what
    the storage backend and the command layer answer; `await` is plain
    sequencing. The `Response` also lists the calls the handler made to those
    collaborators, in order. */
module FirebaseStorageApi {
  import opened JsValues
  import opened Errors
  import opened Collaborators

  /** A handler either resolves with an envelope or rejects with an error. */
  datatype Outcome = Ok(envelope: JsValue) | Err(error: HandlerError)

  /** A handler's outcome and the collaborator calls it made, in order. */
  datatype Response = Response(outcome: Outcome, effects: seq<Effect>)

  /** The result of `getBucket` and the storage calls it made. */
  datatype Resolution = Resolution(result: Result<Bucket>, effects: seq<Effect>)

  /** The envelope shapes handlers build around a command's value. */
  datatype Shape =
    | Plain     // { result: value }
    | MetaUrl   // { result: { success: true, url: value } }
    | UploadAck // { result: { success: true } }, the value is dropped

  /** `CheckHasBodyProp`: rejects a body whose property `field` is falsy, with
      an error naming that field; `None` lets the request through. */
  function CheckHasBodyProp(body: Body, field: string): (r: Option<Error>)
    ensures r.None? <==> Truthy(Prop(body, field))
    ensures r.Some? ==> MissingField(r.value.message) == Some(field)
  {
    if Truthy(Prop(body, field)) then None
    else
      MissingFieldRoundTrip(field);
      Some(MissingProperty(field))
  }

  /** `getBucket`: a falsy name is rejected before the storage backend is
      asked anything; otherwise the bucket's existence is checked once, and a
      negative answer or a thrown error is rethrown behind the
      "Error retrieving bucket: " prefix. */
  function GetBucket(name: JsValue, env: Env): (r: Resolution)
    ensures r.effects == (if Truthy(name) then [ExistsCheck(name)] else [])
    ensures !Truthy(name) ==> r.result == Failure(MissingProperty("bucketname"))
    ensures r.result.Success? <==>
              Truthy(name) && env.bucketExists(name).Replied? && Truthy(Head(env.bucketExists(name).values))
    ensures r.result.Success? ==> r.result.value == Bucket(name)
    ensures Truthy(name) && r.result.Failure? ==> BucketErrorPrefix <= r.result.error.message
    ensures Truthy(name) && env.bucketExists(name).Threw? ==>
              r.result.error == BucketUnavailable(env.bucketExists(name).error)
  {
    if !Truthy(name) then Resolution(Failure(MissingProperty("bucketname")), [])
    else
      var effects := [ExistsCheck(name)];
      match env.bucketExists(name)
      case Threw(e) => Resolution(Failure(BucketUnavailable(e)), effects)
      case Replied(values) =>
        if Truthy(Head(values)) then Resolution(Success(Bucket(name)), effects)
        else Resolution(Failure(BucketUnavailable(BucketMissing(name))), effects)
  }

  /** `{ result: value }` */
  function ResultEnvelope(value: JsValue): JsValue
  {
    Obj(map["result" := value])
  }

  function Envelope(shape: Shape, value: JsValue): JsValue
  {
    match shape
    case Plain => ResultEnvelope(value)
    case MetaUrl => ResultEnvelope(Obj(map["success" := Bool(true), "url" := value]))
    case UploadAck => ResultEnvelope(Obj(map["success" := Bool(true)]))
  }

  /** The handler's `catch`: rethrow `e` under the handler's policy. */
  function Reject(policy: Policy, e: Error, effects: seq<Effect>): Response
  {
    Response(Err(Wrap(policy, e)), effects)
  }

  /** The last stage of every pipeline: make the one command call and wrap
      what it resolves or rejects with. */
  function Dispatch(env: Env, call: Command, prior: seq<Effect>, shape: Shape, policy: Policy): (r: Response)
    ensures r.effects == prior + [Invoke(call)]
    ensures r.outcome.Ok? <==> env.run(call).Returned?
    ensures r.outcome.Ok? ==> r.outcome.envelope == Envelope(shape, env.run(call).value)
    ensures r.outcome.Err? ==> r.outcome.error == Wrap(policy, env.run(call).error)
  {
    var effects := prior + [Invoke(call)];
    match env.run(call)
    case Returned(v) => Response(Ok(Envelope(shape, v)), effects)
    case Failed(e) => Reject(policy, e, effects)
  }

  function HandleList(body: Body, claims: JsValue, env: Env): (r: Response)
    ensures r.outcome.Err? ==> r.outcome.error.WithCause?
  {
    var path := CheckHasBodyProp(body, "path");
    if path.Some? then Reject(ChainCause, path.value, []) else
    var b := GetBucket(Prop(body, "bucketname"), env);
    if b.result.Failure? then Reject(ChainCause, b.result.error, b.effects) else
    Dispatch(env, GetList(b.result.value, Prop(body, "path"), claims), b.effects, Plain, ChainCause)
  }

  function HandleRename(body: Body, claims: JsValue, env: Env): (r: Response)
    ensures r.outcome.Err? ==> r.outcome.error.WithCause?
  {
    var item := CheckHasBodyProp(body, "item");
    if item.Some? then Reject(ChainCause, item.value, []) else
    var newItemPath := CheckHasBodyProp(body, "newItemPath");
    if newItemPath.Some? then Reject(ChainCause, newItemPath.value, []) else
    var b := GetBucket(Prop(body, "bucketname"), env);
    if b.result.Failure? then Reject(ChainCause, b.result.error, b.effects) else
    var call := RenameFile(b.result.value, Prop(body, "item"), Prop(body, "newItemPath"), claims);
    Dispatch(env, call, b.effects, Plain, ChainCause)
  }

  /** Unlike every other handler, Move resolves the bucket before it checks
      the body. */
  function HandleMove(body: Body, claims: JsValue, env: Env): (r: Response)
    ensures r.outcome.Err? ==> r.outcome.error.WithCause?
  {
    var b := GetBucket(Prop(body, "bucketname"), env);
    if b.result.Failure? then Reject(ChainCause, b.result.error, b.effects) else
    var items := CheckHasBodyProp(body, "items");
    if items.Some? then Reject(ChainCause, items.value, b.effects) else
    var newPath := CheckHasBodyProp(body, "newPath");
    if newPath.Some? then Reject(ChainCause, newPath.value, b.effects) else
    var call := MoveFiles(b.result.value, Prop(body, "items"), Prop(body, "newPath"), claims);
    Dispatch(env, call, b.effects, Plain, ChainCause)
  }

  /** Copy takes `items` when truthy, else the one-element list holding
      `singleFileName` when that is truthy, and fails otherwise. */
  function HandleCopy(body: Body, claims: JsValue, env: Env): (r: Response)
    ensures r.outcome.Err? ==> r.outcome.error.WithCause?
  {
    var newPath := CheckHasBodyProp(body, "newPath");
    if newPath.Some? then Reject(ChainCause, newPath.value, []) else
    var b := GetBucket(Prop(body, "bucketname"), env);
    if b.result.Failure? then Reject(ChainCause, b.result.error, b.effects) else
    var items := Prop(body, "items");
    var single := Prop(body, "singleFileName");
    if Truthy(items) then
      Dispatch(env, CopyFiles(b.result.value, items, Prop(body, "newPath"), claims), b.effects, Plain, ChainCause)
    else if Truthy(single) then
      Dispatch(env, CopyFiles(b.result.value, Arr([single]), Prop(body, "newPath"), claims), b.effects, Plain, ChainCause)
    else
      Reject(ChainCause, NoCopySource, b.effects)
  }

  function HandleRemove(body: Body, claims: JsValue, env: Env): (r: Response)
    ensures r.outcome.Err? ==> r.outcome.error.WithCause?
  {
    var items := CheckHasBodyProp(body, "items");
    if items.Some? then Reject(ChainCause, items.value, []) else
    var b := GetBucket(Prop(body, "bucketname"), env);
    if b.result.Failure? then Reject(ChainCause, b.result.error, b.effects) else
    Dispatch(env, RemoveFiles(b.result.value, Prop(body, "items"), claims), b.effects, Plain, ChainCause)
  }

  function HandleEdit(body: Body, claims: JsValue, env: Env): (r: Response)
    ensures r.outcome.Err? ==> r.outcome.error.WithCause?
  {
    var item := CheckHasBodyProp(body, "item");
    if item.Some? then Reject(ChainCause, item.value, []) else
    var content := CheckHasBodyProp(body, "content");
    if content.Some? then Reject(ChainCause, content.value, []) else
    var b := GetBucket(Prop(body, "bucketname"), env);
    if b.result.Failure? then Reject(ChainCause, b.result.error, b.effects) else
    var call := EditFile(b.result.value, Prop(body, "item"), Prop(body, "content"), claims);
    Dispatch(env, call, b.effects, Plain, ChainCause)
  }

  function HandleGetContent(body: Body, claims: JsValue, env: Env): (r: Response)
    ensures r.outcome.Err? ==> r.outcome.error.WithCause?
  {
    var item := CheckHasBodyProp(body, "item");
    if item.Some? then Reject(ChainCause, item.value, []) else
    var b := GetBucket(Prop(body, "bucketname"), env);
    if b.result.Failure? then Reject(ChainCause, b.result.error, b.effects) else
    Dispatch(env, GetFileContent(b.result.value, Prop(body, "item"), claims), b.effects, Plain, ChainCause)
  }

  /** GetMeta reports `success: true` next to the URL the command resolves
      with, whatever that value is. */
  function HandleGetMeta(body: Body, claims: JsValue, env: Env): (r: Response)
    ensures r.outcome.Err? ==> r.outcome.error.WithCause?
  {
    var item := CheckHasBodyProp(body, "item");
    if item.Some? then Reject(ChainCause, item.value, []) else
    var b := GetBucket(Prop(body, "bucketname"), env);
    if b.result.Failure? then Reject(ChainCause, b.result.error, b.effects) else
    Dispatch(env, GetFileMeta(b.result.value, Prop(body, "item"), claims), b.effects, MetaUrl, ChainCause)
  }

  function HandleCreateFolder(body: Body, claims: JsValue, env: Env): (r: Response)
    ensures r.outcome.Err? ==> r.outcome.error.WithCause?
  {
    var newPath := CheckHasBodyProp(body, "newPath");
    if newPath.Some? then Reject(ChainCause, newPath.value, []) else
    var b := GetBucket(Prop(body, "bucketname"), env);
    if b.result.Failure? then Reject(ChainCause, b.result.error, b.effects) else
    Dispatch(env, CreateFolder(b.result.value, Prop(body, "newPath"), claims), b.effects, Plain, ChainCause)
  }

  /** SetPermissions alone rethrows only the caught message, dropping the
      cause. `recursive` is optional and forwarded as it came. */
  function HandleSetPermissions(body: Body, claims: JsValue, env: Env): (r: Response)
    ensures r.outcome.Err? ==> r.outcome.error.MessageOnly?
  {
    var items := CheckHasBodyProp(body, "items");
    if items.Some? then Reject(KeepMessage, items.value, []) else
    var role := CheckHasBodyProp(body, "role");
    if role.Some? then Reject(KeepMessage, role.value, []) else
    var entity := CheckHasBodyProp(body, "entity");
    if entity.Some? then Reject(KeepMessage, entity.value, []) else
    var b := GetBucket(Prop(body, "bucketname"), env);
    if b.result.Failure? then Reject(KeepMessage, b.result.error, b.effects) else
    var call := ChangePermissions(b.result.value, Prop(body, "items"), Prop(body, "role"),
                                  Prop(body, "entity"), Prop(body, "recursive"), claims);
    Dispatch(env, call, b.effects, Plain, KeepMessage)
  }

  /** SaveFile takes its arguments directly rather than in a body, checks
      none of them, and acknowledges any completed upload with
      `{ result: { success: true } }`. */
  function HandleSaveFile(bucketname: JsValue, directoryPath: JsValue, originalname: JsValue,
                          mimetype: JsValue, buffer: JsValue, claims: JsValue, env: Env): (r: Response)
    ensures r.outcome.Err? ==> r.outcome.error.WithCause?
  {
    var b := GetBucket(bucketname, env);
    if b.result.Failure? then Reject(ChainCause, b.result.error, b.effects) else
    var call := UploadFile(b.result.value, directoryPath, originalname, mimetype, buffer, claims);
    Dispatch(env, call, b.effects, UploadAck, ChainCause)
  }
}
