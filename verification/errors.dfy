/** The errors the storage facade raises, their exact messages, and the two
    ways a handler rethrows what it caught. */
module Errors {
  import opened JsValues

  /** A JavaScript `Error`, identified by its message. */
  datatype Error = Error(message: string)

  /** A step of a handler's pipeline either yields a value or throws. */
  datatype Result<T> = Success(value: T) | Failure(error: Error)

  const MissingPropertyPrefix: string := "Request is missing property in req.body: '"

  /** The error for a request body that lacks the property `field`. */
  function MissingProperty(field: string): Error
  {
    Error(MissingPropertyPrefix + field + "'")
  }

  const BucketErrorPrefix: string := "Error retrieving bucket: "

  /** The error a failed bucket resolution is re-thrown as: the caught
      error's message behind a fixed prefix. */
  function BucketUnavailable(inner: Error): Error
  {
    Error(BucketErrorPrefix + inner.message)
  }

  /** The TypeError a failed string conversion throws, with the message the
      V8 engine gives it. */
  const ConversionFailure: Error := Error("Cannot convert object to primitive value")

  /** The error raised when the storage backend reports the bucket absent.
      Building its message interpolates the name, which throws instead when
      the name cannot be converted to a string. */
  function BucketMissing(name: JsValue): Error
  {
    match DisplayString(name)
    case Some(shown) => Error("bucket: \"" + shown + "\" doesn't exist, please create it first")
    case None => ConversionFailure
  }

  /** The error a Copy request without anything to copy fails with. */
  const NoCopySource: Error := Error("Request does not contain either body.items or body.singleFileName")

  /** The field a missing-property message names, if the message is one. */
  function MissingField(message: string): Option<string>
  {
    var p := |MissingPropertyPrefix|;
    if |message| >= p + 1 && MissingPropertyPrefix <= message && message[|message| - 1] == '\''
    then Some(message[p..|message| - 1])
    else None
  }

  /** A missing-property error names exactly the field that was missing, so
      no two fields share a message. */
  lemma MissingFieldRoundTrip(field: string)
    ensures MissingField(MissingProperty(field).message) == Some(field)
  {
  }

  /** Bucket-resolution errors never read as missing-property errors. */
  lemma BucketErrorIsNotMissingProperty(inner: Error)
    ensures MissingField(BucketUnavailable(inner).message) == None
  {
    var m := BucketUnavailable(inner).message;
    var p := |MissingPropertyPrefix|;
    if |m| >= p + 1 {
      assert m[..p][0] == 'E' != MissingPropertyPrefix[0];
    }
  }

  /** The Copy selection error never reads as a missing-property error. */
  lemma NoCopySourceIsNotMissingProperty()
    ensures MissingField(NoCopySource.message) == None
  {
  }

  /** How a handler rethrows what it caught: `new VError(error)` keeps the
      caught error as its cause; `new Error(error.message)` keeps only the
      message text. */
  datatype Policy = ChainCause | KeepMessage

  /** The error a handler finally throws. VError's own message formatting is
      not modelled: `WithCause` records the cause it carries. */
  datatype HandlerError = WithCause(cause: Error) | MessageOnly(message: string)
  {
    /** The message of the error the handler caught. */
    function CaughtMessage(): string
    {
      match this
      case WithCause(cause) => cause.message
      case MessageOnly(message) => message
    }
  }

  /** Rethrows `e` under `policy`. */
  function Wrap(policy: Policy, e: Error): (r: HandlerError)
    ensures r.CaughtMessage() == e.message
    ensures r.WithCause? <==> policy == ChainCause
    ensures r.WithCause? ==> r.cause == e
  {
    match policy
    case ChainCause => WithCause(e)
    case KeepMessage => MessageOnly(e.message)
  }
}
