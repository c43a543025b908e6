/** Option and Result, the failure-carrying datatypes the rest of the model uses
    in place of Python's None and raised exceptions. */
module Wrappers {

  datatype Option<+T> = None | Some(value: T) {
    function GetOr(default: T): T {
      match this
      case Some(v) => v
      case None => default
    }
  }

  /** `Failure(msg)` stands for an exception whose `str()` is `msg`. */
  datatype Result<+R, +E> = Success(value: R) | Failure(error: E)
}
