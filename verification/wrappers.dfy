/** Optional values and failure-carrying results, used for JavaScript's
    `null`/`undefined` and for rejected promises. */
module Wrappers {

  datatype Option<+T> = None | Some(value: T) {
    function GetOr(default: T): T {
      match this
      case Some(v) => v
      case None => default
    }
  }

  datatype Result<+T, +E> = Ok(value: T) | Err(error: E)

  /** The result of an operation that returns nothing but may reject. */
  datatype Outcome<+E> = Pass | Fail(error: E)
}
