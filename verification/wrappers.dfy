/** Optional values and error-carrying results, standing in for Go's nil
    pointers and `(value, error)` returns. */
module Wrappers {

  /** A Go pointer or optional value: `None` is nil. */
  datatype Option<+T> = None | Some(value: T) {

    /** The wrapped value, or `default` when there is none. */
    function GetOr(default: T): T {
      match this
      case Some(v) => v
      case None => default
    }
  }

  /** A Go `(value, error)` pair where exactly one side is meaningful. */
  datatype Result<+R, +E> = Success(value: R) | Failure(error: E)
}
