/** The two collaborators the storage facade calls but does not define: the
    cloud-storage SDK (bucket lookup and its existence check) and the
    `commands` layer. Both are opaque here: a request is evaluated against an
    `Env` that fixes, for this one request, what each call answers. */
module Collaborators {
  import opened JsValues
  import opened Errors

  /** A bucket handle, as `storage.bucket(name)` returns it. */
  datatype Bucket = Bucket(name: JsValue)

  /** What `storage.bucket(name).exists()` yields: the array whose first
      element the facade reads, or an error thrown by either call. */
  datatype ExistsReply = Replied(values: seq<JsValue>) | Threw(error: Error)

  /** One call into the `commands` layer, with the arguments the facade
      passes. `claims`, buffers, mime types and the `recursive` flag are
      forwarded as they came and never inspected. */
  datatype Command =
    | GetList(bucket: Bucket, path: JsValue, claims: JsValue)
    | RenameFile(bucket: Bucket, item: JsValue, newItemPath: JsValue, claims: JsValue)
    | MoveFiles(bucket: Bucket, items: JsValue, newPath: JsValue, claims: JsValue)
    | CopyFiles(bucket: Bucket, files: JsValue, newPath: JsValue, claims: JsValue)
    | RemoveFiles(bucket: Bucket, items: JsValue, claims: JsValue)
    | EditFile(bucket: Bucket, item: JsValue, content: JsValue, claims: JsValue)
    | GetFileContent(bucket: Bucket, item: JsValue, claims: JsValue)
    | GetFileMeta(bucket: Bucket, item: JsValue, claims: JsValue)
    | CreateFolder(bucket: Bucket, newPath: JsValue, claims: JsValue)
    | ChangePermissions(bucket: Bucket, items: JsValue, role: JsValue, entity: JsValue,
                        recursive: JsValue, claims: JsValue)
    | UploadFile(bucket: Bucket, directoryPath: JsValue, originalname: JsValue,
                 mimetype: JsValue, buffer: JsValue, claims: JsValue)

  /** What a command resolves to, or the error it rejects with. */
  datatype CommandReply = Returned(value: JsValue) | Failed(error: Error)

  /** The answers of the storage backend and of the command layer. */
  datatype Env = Env(bucketExists: JsValue -> ExistsReply, run: Command -> CommandReply)

  /** An observable call a handler makes to a collaborator. */
  datatype Effect = ExistsCheck(name: JsValue) | Invoke(command: Command)
}
