# ngx-filemanager storage API facade, modelled in Dafny

This project models `NgxFileMangerApiFireBaseClass`, the request-validation
and dispatch facade of the ngx-filemanager Firebase backend. Every handler
(List, Rename, Move, Copy, Remove, Edit, GetContent, GetMeta, CreateFolder,
SetPermissions, SaveFile) runs one linear pipeline that stops at the first
failure:

1. check that the required request-body properties are truthy (`CheckHasBodyProp`);
2. resolve the named bucket and ask the storage backend whether it exists (`getBucket`);
3. call exactly one function of the `commands` layer;
4. wrap the command's value in a `{ result: ... }` envelope, or rethrow the error.

The storage SDK and the `commands` layer are not part of this model. A request
is evaluated against an `Env` holding two oracle functions: what
`storage.bucket(name).exists()` answers for a bucket name (an array, or a
thrown error), and what each command call resolves or rejects with. A handler
is a pure function of the request body, the opaque `claims` and the `Env`.
It returns its outcome and the list of calls it made to those
collaborators, in order. So "storage is not asked before the body checks" and
"the command is called at most once, after every check" are properties of
that list.

Files:
- `js_values.dfy` (`JsValues`): JavaScript values, truthiness, property access, and `String(v)`. The conversion throws for an object with its own `toString` property, directly or as an array element. Integers are written exactly as JavaScript writes them below 10^21 in magnitude.
- `errors.dfy` (`Errors`): the error messages, a parser recovering the field a missing-property message names, and the two rethrow policies (`new VError(error)` keeps the cause, `new Error(error.message)` keeps only the text).
- `collaborators.dfy` (`Collaborators`): bucket handles, the command calls with their arguments, the `Env` oracles and the recorded calls.
- `storage_api.dfy` (`FirebaseStorageApi`): `CheckHasBodyProp`, `GetBucket` and the eleven handlers.
- `check_order.dfy` (`CheckOrder`): a reference semantics. Each handler is written down as its plan, the ordered list of checks it runs. A request fails with the error of the first failing check and the command runs only when all pass. This module also holds general lemmas about that semantics.
- `handler_plans.dfy` (`HandlerPlans`): each handler equals the reference semantics of its plan.
- `handler_properties.dfy` (`HandlerProperties`): consequences of the plans for individual handlers.

## Behaviour a caller may not expect

- `getBucket` rethrows a missing bucket, or a failed existence check, as a new `Error`. Its message is `'Error retrieving bucket: '` plus the caught message. The caught error is not chained as a cause at that point; only the handler's own `VError` chains that new error.
- The existence answer counts as "exists" when the first element of the returned array is truthy (`.shift()`, then `!exists`). It need not be a boolean, and an empty array reads as "does not exist".
- A Copy request that names only `singleFileName` resolves only when the copy command itself resolves. Passing the selection check is not enough.
- A bucket name that is an object with its own `toString` property (a JSON body can send one) cannot be converted to a string. If the backend reports that bucket absent, building the "doesn't exist" message throws a TypeError, and that TypeError's message is what follows "Error retrieving bucket: ".
- A falsy `bucketname` is reported only when every body check before the bucket check passed. Move is the one exception, because it resolves the bucket first.

## Model

| member | source | states |
|---|---|---|
| `JsValues.Truthy` | projects/ngx-filemanager-api-firebase/src/lib/api/firebase-storage-api.ts:5-10 | A value is truthy exactly when it is none of undefined, null, false, 0, NaN and "". Empty arrays and objects count as truthy. |
| `FirebaseStorageApi.CheckHasBodyProp` | projects/ngx-filemanager-api-firebase/src/lib/api/firebase-storage-api.ts:5-10 | Passes exactly when `body[field]` is truthy (a missing property reads as undefined). A rejection's message parses back to exactly that field name. |
| `Errors.MissingFieldRoundTrip` | projects/ngx-filemanager-api-firebase/src/lib/api/firebase-storage-api.ts:8 | The missing-property message determines the field it names, so distinct fields give distinct messages. |
| `Errors.BucketErrorIsNotMissingProperty` | projects/ngx-filemanager-api-firebase/src/lib/api/firebase-storage-api.ts:29 | A message behind the "Error retrieving bucket: " prefix never parses as a missing-property message. |
| `Errors.NoCopySourceIsNotMissingProperty` | projects/ngx-filemanager-api-firebase/src/lib/api/firebase-storage-api.ts:109-111 | Copy's "neither items nor singleFileName" message never parses as a missing-property message. |
| `FirebaseStorageApi.GetBucket` | projects/ngx-filemanager-api-firebase/src/lib/api/firebase-storage-api.ts:15-31 | A falsy name fails with the missing-'bucketname' error and makes no storage call. Otherwise exactly one existence check is made. The handle `Bucket(name)` is returned exactly when the first element of the answer is truthy. A negative answer or a thrown check fails with a message starting "Error retrieving bucket: ". A thrown check's message follows that prefix. |
| `HandlerProperties.AbsentBucketMessage` | projects/ngx-filemanager-api-firebase/src/lib/api/firebase-storage-api.ts:21-29 | A bucket whose existence answer has a falsy (or no) first element fails after one storage call with "Error retrieving bucket: " followed by the 'bucket: "name" doesn't exist, please create it first' message, the name rendered by `JsValues.DisplayString`. When the name cannot be converted to a string, building that message throws a TypeError, and the result is the prefix followed by the TypeError's message. |
| `HandlerProperties.ObjectNameWithOwnToString` | projects/ngx-filemanager-api-firebase/src/lib/api/firebase-storage-api.ts:21-29 | A bucket name given as the object `{ toString: "x" }` that the backend reports absent fails with "Error retrieving bucket: " followed by the TypeError's message, not with the "doesn't exist" text. |
| `JsValues.DisplayString` | projects/ngx-filemanager-api-firebase/src/lib/api/firebase-storage-api.ts:24 | The text `${bucketname}` interpolates. The conversion throws exactly when the value is, or is an array containing at some depth, an object with its own `toString` property. A string renders as itself. An integer renders as its canonical decimal numeral, which reads back to that integer. Only the empty string and arrays (an empty array is truthy) render as "". |
| `HandlerProperties.MissingBucketNameIsPropertyError` | projects/ngx-filemanager-api-firebase/src/lib/api/firebase-storage-api.ts:16-18 | A falsy bucket name gives the same error `CheckHasBodyProp(body, 'bucketname')` would. It parses as naming 'bucketname', lacks the bucket prefix, and comes with no storage call. |
| `Errors.Wrap` | projects/ngx-filemanager-api-firebase/src/lib/api/firebase-storage-api.ts:45-47 | A rethrown error carries the caught message. It keeps the caught error as cause exactly under the VError policy. |
| `FirebaseStorageApi.Dispatch` | projects/ngx-filemanager-api-firebase/src/lib/api/firebase-storage-api.ts:40-44 | The command is called once, after the earlier calls. The handler resolves exactly when the command does, with the command's value in the handler's envelope, and otherwise rejects with the command's error under the handler's policy. |
| `FirebaseStorageApi.HandleList` | projects/ngx-filemanager-api-firebase/src/lib/api/firebase-storage-api.ts:33-48 | Every rejection chains the caught error as its cause. |
| `FirebaseStorageApi.HandleRename` | projects/ngx-filemanager-api-firebase/src/lib/api/firebase-storage-api.ts:50-71 | Every rejection chains the caught error as its cause. |
| `FirebaseStorageApi.HandleMove` | projects/ngx-filemanager-api-firebase/src/lib/api/firebase-storage-api.ts:73-94 | Every rejection chains the caught error as its cause. |
| `FirebaseStorageApi.HandleCopy` | projects/ngx-filemanager-api-firebase/src/lib/api/firebase-storage-api.ts:96-126 | Every rejection chains the caught error as its cause. |
| `FirebaseStorageApi.HandleRemove` | projects/ngx-filemanager-api-firebase/src/lib/api/firebase-storage-api.ts:128-143 | Every rejection chains the caught error as its cause. |
| `FirebaseStorageApi.HandleEdit` | projects/ngx-filemanager-api-firebase/src/lib/api/firebase-storage-api.ts:145-166 | Every rejection chains the caught error as its cause. |
| `FirebaseStorageApi.HandleGetContent` | projects/ngx-filemanager-api-firebase/src/lib/api/firebase-storage-api.ts:168-183 | Every rejection chains the caught error as its cause. |
| `FirebaseStorageApi.HandleGetMeta` | projects/ngx-filemanager-api-firebase/src/lib/api/firebase-storage-api.ts:185-204 | Every rejection chains the caught error as its cause. |
| `FirebaseStorageApi.HandleCreateFolder` | projects/ngx-filemanager-api-firebase/src/lib/api/firebase-storage-api.ts:206-221 | Every rejection chains the caught error as its cause. |
| `FirebaseStorageApi.HandleSetPermissions` | projects/ngx-filemanager-api-firebase/src/lib/api/firebase-storage-api.ts:223-247 | Every rejection carries only the caught message, with no cause. |
| `FirebaseStorageApi.HandleSaveFile` | projects/ngx-filemanager-api-firebase/src/lib/api/firebase-storage-api.ts:249-276 | Every rejection chains the caught error as its cause. |
| `CheckOrder.FirstFailure` | projects/ngx-filemanager-api-firebase/src/lib/api/firebase-storage-api.ts:37-47 | Returns a failing check with its error such that every earlier check passes, or nothing exactly when every check passes. |
| `CheckOrder.FirstFailureIsFirst` | projects/ngx-filemanager-api-firebase/src/lib/api/firebase-storage-api.ts:37-47 | Check i with error e is reported exactly when check i is the first failing one and fails with e. Nothing is reported exactly when all checks pass. |
| `CheckOrder.EffectsThroughOneBucket` | projects/ngx-filemanager-api-firebase/src/lib/api/firebase-storage-api.ts:19-21 | Only the bucket check talks to storage. The calls made by any prefix of a plan are none before the bucket check, and `getBucket`'s once it is reached. |
| `CheckOrder.ReferenceCallSequence` | projects/ngx-filemanager-api-firebase/src/lib/api/firebase-storage-api.ts:37-44 | The calls made form a prefix of [existence check of the bucket name, the one command call]. Storage is asked exactly when every earlier check passed and the name is truthy. The command is called exactly when every check passed. |
| `CheckOrder.ReferenceOutcome` | projects/ngx-filemanager-api-firebase/src/lib/api/firebase-storage-api.ts:37-47 | The first failing check's error, rethrown under the handler's policy, is the outcome. The handler resolves exactly when every check passes and the command returns, with the command's value in the handler's envelope. When the command rejects, its error is rethrown. |
| `CheckOrder.FirstFailureLocal` | projects/ngx-filemanager-api-firebase/src/lib/api/firebase-storage-api.ts:15-31 | Two requests whose checks and storage calls agree stop at the same check, and have made the same calls at every point of the plan. |
| `CheckOrder.ReferenceIsRequestScoped` | projects/ngx-filemanager-api-firebase/src/lib/api/firebase-storage-api.ts:15-31 | A handler's answer depends on the collaborators only through the existence answer for its own bucket name and the reply to its own command call. Nothing is cached or shared between requests. |
| `HandlerPlans.ListFollowsPlan` | projects/ngx-filemanager-api-firebase/src/lib/api/firebase-storage-api.ts:33-48 | List checks `path`, then the bucket, then calls `GetList(bucket, path, claims)` and returns `{ result: r }`. |
| `HandlerPlans.RenameFollowsPlan` | projects/ngx-filemanager-api-firebase/src/lib/api/firebase-storage-api.ts:50-71 | Rename checks `item`, then `newItemPath`, then the bucket, then calls `RenameFile` and returns `{ result: r }`. |
| `HandlerPlans.MoveFollowsPlan` | projects/ngx-filemanager-api-firebase/src/lib/api/firebase-storage-api.ts:73-94 | Move resolves the bucket first, then checks `items`, then `newPath`, then calls `MoveFiles` and returns `{ result: r }`. |
| `HandlerPlans.CopyFollowsPlan` | projects/ngx-filemanager-api-firebase/src/lib/api/firebase-storage-api.ts:96-126 | Copy checks `newPath`, then the bucket, then the copy source, then calls `CopyFiles` with the selected files and returns `{ result: r }`. |
| `HandlerPlans.RemoveFollowsPlan` | projects/ngx-filemanager-api-firebase/src/lib/api/firebase-storage-api.ts:128-143 | Remove checks `items`, then the bucket, then calls `RemoveFiles` and returns `{ result: r }`. |
| `HandlerPlans.EditFollowsPlan` | projects/ngx-filemanager-api-firebase/src/lib/api/firebase-storage-api.ts:145-166 | Edit checks `item`, then `content`, then the bucket, then calls `EditFile` and returns `{ result: r }`. |
| `HandlerPlans.GetContentFollowsPlan` | projects/ngx-filemanager-api-firebase/src/lib/api/firebase-storage-api.ts:168-183 | GetContent checks `item`, then the bucket, then calls `GetFileContent` and returns `{ result: r }`. |
| `HandlerPlans.GetMetaFollowsPlan` | projects/ngx-filemanager-api-firebase/src/lib/api/firebase-storage-api.ts:185-204 | GetMeta checks `item`, then the bucket, then calls `GetFileMeta` and wraps the value as the URL. |
| `HandlerPlans.CreateFolderFollowsPlan` | projects/ngx-filemanager-api-firebase/src/lib/api/firebase-storage-api.ts:206-221 | CreateFolder checks `newPath`, then the bucket, then calls `CreateFolder` and returns `{ result: r }`. |
| `HandlerPlans.SetPermissionsFollowsPlan` | projects/ngx-filemanager-api-firebase/src/lib/api/firebase-storage-api.ts:223-247 | SetPermissions checks `items`, `role`, `entity`, then the bucket. It then calls `ChangePermissions`, forwarding `recursive` unchecked, and rethrows message-only. |
| `HandlerPlans.SaveFileFollowsPlan` | projects/ngx-filemanager-api-firebase/src/lib/api/firebase-storage-api.ts:249-276 | SaveFile checks only the bucket given as its parameter, then calls `UploadFile` with its arguments unchanged. |
| `HandlerProperties.RenameChecksBodyBeforeBucket` | projects/ngx-filemanager-api-firebase/src/lib/api/firebase-storage-api.ts:55-57 | A missing `item` wins, then a missing `newItemPath`, in both cases with no storage call. Only then does a bucket problem decide the error. |
| `HandlerProperties.MoveChecksBucketBeforeBody` | projects/ngx-filemanager-api-firebase/src/lib/api/firebase-storage-api.ts:78-80 | A bucket problem wins over missing `items` or `newPath`. With the bucket resolved, a missing `items` wins over a missing `newPath`. |
| `HandlerProperties.MoveAndRemoveDisagreeOnFirstError` | projects/ngx-filemanager-api-firebase/src/lib/api/firebase-storage-api.ts:78-80 | On one body naming an absent bucket and nothing else, Move fails with the bucket error after one storage call. Remove fails with missing `items` and makes no call. |
| `HandlerProperties.CopySelectionRule` | projects/ngx-filemanager-api-firebase/src/lib/api/firebase-storage-api.ts:101-112 | Once `newPath` and the bucket pass: a truthy `items` is copied whatever `singleFileName` holds. Otherwise a truthy `singleFileName` is copied as a one-element list. Otherwise Copy fails with the no-source error and calls no command. |
| `HandlerProperties.GetMetaEnvelope` | projects/ngx-filemanager-api-firebase/src/lib/api/firebase-storage-api.ts:190-200 | GetMeta resolves exactly when `item` and the bucket pass and the command returns, with `{ result: { success: true, url: d } }` for the returned `d`. |
| `HandlerProperties.SaveFileEnvelope` | projects/ngx-filemanager-api-firebase/src/lib/api/firebase-storage-api.ts:258-272 | SaveFile resolves exactly when the bucket resolves and the upload returns, always with `{ result: { success: true } }`. |
| `HandlerProperties.SetPermissionsDropsCause` | projects/ngx-filemanager-api-firebase/src/lib/api/firebase-storage-api.ts:244-246 | SetPermissions rejects with the caught message only. A missing `items` gives exactly that message and no call. A failing command gives exactly the command error's message. |

## Left out

- `ngx-filemanager-client-firebase.module.ts` is Angular module wiring with no logic of its own and is not modelled.
- The storage SDK and the `commands` layer are oracles of the `Env`. Their own behaviour (what a list, copy or upload does to a bucket) is not modelled. `storage.bucket(name)` throwing and `exists()` throwing are one oracle answer, because the facade treats both alike.
- Promises and `await` are modelled as plain sequencing. No two handler calls share state, which `CheckOrder.ReferenceIsRequestScoped` states.
- VError's own message formatting is not modelled. A VError rethrow is recorded as carrying its cause, and a SetPermissions rethrow as carrying only the text.
- A thrown value that is not an `Error` (whose `.message` would read as undefined) is not modelled. Every caught error carries a message string.
- JavaScript numbers are modelled as integers plus NaN. Fractional numbers, infinities, BigInt and symbols are not modelled. Truthiness of the modelled values is exact. `Num(n)` admits integers beyond 2^53, which no JavaScript number holds exactly.
- JsValues.DisplayString: writes every integer out in full decimal. JavaScript's `String(n)` uses exponent form from 10^21 in magnitude on (`String(1e21)` is "1e+21"), so the rendering is JavaScript's only below that bound.
- HandlerProperties.AbsentBucketMessage: for an integer name of magnitude 10^21 or more the model writes all digits where JavaScript writes exponent form, and integer names beyond 2^53 stand for no JavaScript number.
- The TypeError a failed string conversion throws carries the message the V8 engine gives it, "Cannot convert object to primitive value". Other engines word it differently.
- A request body is modelled as its own properties. Properties inherited from `Object.prototype` (such as `constructor`) are not modelled; none of the property names the facade checks is one. A body that is itself undefined or null is not modelled either.
- `claims`, buffers, mime types, paths and the `recursive` flag are forwarded unchanged as opaque values and never interpreted.
