/**
 Vocabulary shared by the job handlers: optional values, bytes, the result of
 Python's `int(...)` on a request field, and the three ways a handler invocation
 can end (a returned body, a returned error dictionary, or a raised exception).
 */
module JobTypes {

  /** A value that may be absent (a JSON key that was not sent, `None`). */
  datatype Option<+T> = None | Some(value: T) {

    /** `dict.get(key, default)`: the value when present, otherwise the default. */
    function GetOr(default: T): (r: T)
      ensures Some? ==> r == value
      ensures None? ==> r == default
    {
      match this
      case Some(v) => v
      case None => default
    }
  }

  /** One octet of a decoded payload. */
  newtype byte = x: int | 0 <= x < 256

  /** The result of applying Python's `int(...)` to a request field: either the
      integer it denotes, or a value `int` rejects with `ValueError`. */
  datatype IntArg = Int(n: int) | NotAnInt

  /** How one handler invocation ends. `Returned` carries the success body,
      `ErrorDict` the `{'status': 'error', 'message': ...}` dictionary that the
      handler returns (not raises), and `Raised` the exception that escapes. */
  datatype Outcome<+B, +E> =
    | Returned(body: B)
    | ErrorDict(message: string)
    | Raised(fault: E)
}
