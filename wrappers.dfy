/** Option and Result, the two failure-carrying datatypes the model uses. */
module Wrappers {

  /** An optional value: the Go code's nil pointer is None. */
  datatype Option<+T> = None | Some(value: T) {

    /** The value, or the given default when there is none. */
    function GetOr(default: T): T
    {
      match this
      case Some(v) => v
      case None => default
    }
  }

  /** A value or an error: the Go code's `(value, error)` pair. */
  datatype Result<+T, +E> = Success(value: T) | Failure(error: E)
}
