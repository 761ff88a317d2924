/** Option and Result, used for JavaScript's `undefined` and for thrown errors. */
module Wrappers {

  /** `None` stands for JavaScript's `undefined` (or an absent key). */
  datatype Option<+T> = None | Some(value: T) {
    function GetOr(default: T): T {
      match this
      case Some(v) => v
      case None => default
    }
  }

  /** An operation that either succeeds with a value or fails with an error. */
  datatype Result<+R, +E> = Success(value: R) | Failure(error: E)
}
