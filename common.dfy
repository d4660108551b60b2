/** Values shared by every page of the application: optional values (JavaScript's
    null/undefined), and the outcome of a remote call, which the model receives as an
    input instead of performing the call. */
module Common {

  datatype Option<+T> = None | Some(value: T) {
    /** `x ?? d` and `x || d` for a value that is never falsy when present */
    function GetOr(default: T): T {
      match this
      case Some(v) => v
      case None => default
    }
  }

  /** What an awaited request to the remote service produced: its response body, or a
      rejected promise (network error or non-2xx status). */
  datatype Response<+T> = Ok(data: T) | Failed

  /** A job position, as the positions endpoint lists it. */
  datatype Position = Position(id: int, name: string)

  function Min(a: int, b: int): int {
    if a <= b then a else b
  }

  function Max(a: int, b: int): int {
    if a <= b then b else a
  }
}
