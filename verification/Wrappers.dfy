/** Optional values and success/failure results shared by every module of the model. */
module Wrappers {

  /** A value that may be missing: Python's `None` versus a present value. */
  datatype Option<+T> = None | Some(value: T) {

    /** The present value, or `default` when there is none. */
    function GetOr(default: T): T {
      match this
      case Some(v) => v
      case None => default
    }
  }

  /** The outcome of a step that either completes or raises: `Failure` carries the reason. */
  datatype Result<+R, +E> = Success(value: R) | Failure(error: E)
}
