/** Values shared by every stage of the archiver: bytes, optional values,
    the error chain that Go's `errors.Wrap` builds, and stage results. */
module Base {

  /** One octet of a payload, a log body or a compressed buffer. */
  newtype Byte = x: int | 0 <= x < 256

  datatype Option<+T> = None | Some(value: T)

  /** The value, or `default` when there is none. */
  function ValueOr<T>(o: Option<T>, default: T): T
  {
    match o
    case Some(v) => v
    case None => default
  }

  /** A Go `error` as this program sees it: a storage-service error carrying
      a service error code, any other error from a library or the network,
      or a context message wrapped around an inner error. One `Wrapped`
      layer is one `errors.Wrap` of `github.com/pkg/errors`, its message
      layer and its stack layer taken together. */
  datatype Error =
    | Service(code: string)
    | Other(description: string)
    | Wrapped(message: string, cause: Error)

  /** The `(value, error)` pair of a Go call: exactly one of the two is set. */
  datatype Result<+T> = Ok(value: T) | Err(error: Error)

  function ErrorOf<T>(r: Result<T>): (e: Option<Error>)
    ensures e.Some? <==> r.Err?
    ensures r.Err? ==> e.value == r.error
  {
    match r
    case Ok(_) => None
    case Err(err) => Some(err)
  }

  /** Wraps `e` in `messages`, the first message outermost. */
  function WrapAll(messages: seq<string>, e: Error): Error
  {
    if |messages| == 0 then e else Wrapped(messages[0], WrapAll(messages[1..], e))
  }

  lemma WrapAllSingle(message: string, e: Error)
    ensures WrapAll([message], e) == Wrapped(message, e)
  {
    assert [message][1..] == [];
  }

  /** Peels `depth` messages off `e`, undoing `depth` calls of
      `errors.Wrap`; stops early at an unwrapped error. */
  function Cause(e: Error, depth: nat): Error
  {
    if depth == 0 then e
    else match e
      case Wrapped(_, inner) => Cause(inner, depth - 1)
      case _ => e
  }

  /** Wrapping loses nothing: unwrapping as many layers as were added gives
      back the original error. */
  lemma {:induction false} CauseOfWrapAll(messages: seq<string>, e: Error)
    ensures Cause(WrapAll(messages, e), |messages|) == e
  {
    if |messages| > 0 {
      CauseOfWrapAll(messages[1..], e);
    }
  }

  /** The code of the first storage-service error in the chain, if any
      (`errors.As` looking for a response error). */
  function ServiceCode(e: Error): Option<string>
  {
    match e
    case Service(code) => Some(code)
    case Other(_) => None
    case Wrapped(_, inner) => ServiceCode(inner)
  }

  /** Wrapping keeps the service code: `errors.As` looks through every
      message. */
  lemma {:induction false} ServiceCodeOfWrapAll(messages: seq<string>, e: Error)
    ensures ServiceCode(WrapAll(messages, e)) == ServiceCode(e)
  {
    if |messages| > 0 {
      ServiceCodeOfWrapAll(messages[1..], e);
    }
  }

  /** `bloberror.HasCode(err, code)`: false for a nil error. */
  predicate HasCode(err: Option<Error>, code: string)
  {
    err.Some? && ServiceCode(err.value) == Some(code)
  }
}
