/** Option and Result, the failure-carrying values used across the model
    (a Python `None`, a raised exception). */
module Wrappers {

  datatype Option<+T> = None | Some(value: T) {
    /** `self or default` when only None counts as missing. */
    function GetOr(default: T): T {
      match this
      case Some(v) => v
      case None => default
    }
  }

  datatype Result<+R, +E> = Success(value: R) | Failure(error: E)
}
