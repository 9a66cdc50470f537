/** Optional values and success/failure results shared by the model's modules. */
module Wrappers {

  /** A value that may be absent: a `null`/`undefined` field, a missing storage key. */
  datatype Option<+T> = None | Some(value: T) {

    /** The carried value, or `default` when absent (JavaScript's `x ?? default`). */
    function GetOr(default: T): T {
      match this
      case Some(v) => v
      case None => default
    }
  }

  /** The outcome of a request: the reply it settled with, or the message of the error it raised. */
  datatype Result<+T, +E> = Ok(value: T) | Err(error: E)
}
