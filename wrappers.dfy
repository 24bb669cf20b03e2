/** Optional values and results with an error, in place of Python's None and raised exceptions. */
module Wrappers {

  /** A value that may be absent (Python's `Optional[T]`). */
  datatype Option<+T> = None | Some(value: T) {

    /** The value, or `default` when there is none. */
    function GetOr(default: T): T {
      match this
      case Some(v) => v
      case None => default
    }
  }

  /** Either a result or the error that prevented it. */
  datatype Result<+T, +E> = Success(value: T) | Failure(error: E)
}
