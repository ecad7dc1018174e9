/** Optional values and results with an error branch. */
module Wrappers {

  /** A value that may be absent (JavaScript's `undefined`). */
  datatype Option<+T> = None | Some(value: T) {
    /** The value, or `default` when absent (JavaScript's `x || default`). */
    function GetOr(default: T): T {
      match this
      case Some(v) => v
      case None => default
    }
  }

  /** A computation that returns a value or fails with an error (a thrown exception). */
  datatype Result<+R, +E> = Ok(value: R) | Err(error: E)
}
