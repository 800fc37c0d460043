/** Optional values and success/failure results shared by every module of the model. */
module Wrappers {

  datatype Option<+T> = None | Some(value: T) {
    function GetOr(default: T): T {
      match this
      case Some(v) => v
      case None => default
    }
  }

  /** The outcome of an operation that can throw: `Failure` carries the error. */
  datatype Result<+R, +E> = Success(value: R) | Failure(error: E)
}
