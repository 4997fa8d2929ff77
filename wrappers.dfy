/** Option and Result, the failure-carrying values used across the model. */
module Wrappers {

  /** `None` stands for JavaScript's `undefined` where a value may be missing. */
  datatype Option<+T> = None | Some(value: T) {
    function GetOr(default: T): T {
      match this
      case Some(v) => v
      case None => default
    }
  }

  /** A settled promise: resolved with a value or rejected with an error. */
  datatype Result<+R, +E> = Success(value: R) | Failure(error: E)
}
