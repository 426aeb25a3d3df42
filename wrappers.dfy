/** Optional values and results that may be errors, shared by the other modules. */
module Wrappers {

  /** A value that may be absent (JavaScript's `null` / `undefined`). */
  datatype Option<+T> = None | Some(value: T) {

    /** The wrapped value, or `default` when there is none. */
    function GetOr(default: T): T {
      match this
      case Some(v) => v
      case None => default
    }
  }

  /** The outcome of an operation that may throw. */
  datatype Result<+T, +E> = Ok(value: T) | Err(error: E)
}
