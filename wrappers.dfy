/** Optional values and results with an error, as used by every other module. */
module Wrappers {

  /** A value that may be missing: an absent JSON field, a lookup miss, a parse failure. */
  datatype Option<+T> = None | Some(value: T) {
    function GetOr(default: T): T {
      match this
      case Some(v) => v
      case None => default
    }
  }

  /** The outcome of an operation that can raise: `Failure` stands for the exception. */
  datatype Result<+T, +E> = Success(value: T) | Failure(error: E)
}
