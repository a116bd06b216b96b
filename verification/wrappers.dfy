/** Failure-compatible wrappers shared by every module of the model. */
module Wrappers {

  /** A value that may be absent (`undefined` in JavaScript). */
  datatype Option<+T> = None | Some(value: T) {
    function GetOr(default: T): T {
      match this
      case Some(v) => v
      case None => default
    }
  }

  /** A computation that either returns a value or throws an error. */
  datatype Result<+R, +E> = Success(value: R) | Failure(error: E)

  /** A computation that returns nothing but may throw an error. */
  datatype Outcome<+E> = Pass | Fail(error: E)
}
