/** Optional values and success-or-failure values, used wherever the Python code
    returns None or raises. */
module Wrappers {

  datatype Option<+T> = None | Some(value: T) {
    function GetOr(default: T): T {
      match this
      case Some(v) => v
      case None => default
    }
  }

  /** `Failure` carries the text that `str(e)` gives for the exception raised. */
  datatype Result<+R, +E> = Success(value: R) | Failure(error: E)
}
