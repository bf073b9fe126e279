/** Optional values, used wherever the Go code returns a pointer that may be nil,
    a `(value, ok)` pair, or an `error` that may be nil; and results, for a
    value paired with an error. */
module Wrappers {

  datatype Option<+T> = None | Some(value: T) {

    /** The wrapped value, or `default` when there is none. */
    function GetOr(default: T): T {
      match this
      case Some(v) => v
      case None => default
    }
  }

  /** A value or an error, for Go functions returning `(T, error)`. */
  datatype Result<+T, +E> = Success(value: T) | Failure(error: E)
}
