/** Option and Result, the failure-carrying values used throughout the model:
    Option stands for a Go reference field that may be nil, Result for a Go
    `(value, error)` return. */
module Wrappers {

  datatype Option<+T> = None | Some(value: T) {

    /** The value, or the given default when nil. */
    function GetOr(default: T): T {
      match this
      case Some(v) => v
      case None => default
    }
  }

  datatype Result<+T, +E> = Success(value: T) | Failure(error: E)
}
