/** Option and Result values standing for Go's nil pointers and `(value, error)` pairs. */
module Wrappers {

  /** A value that may be absent: a nil pointer or interface in the source. */
  datatype Option<+T> = None | Some(value: T)

  /** A value or an error, as returned by a Go function with an `error` result. */
  datatype Result<+T, +E> = Success(value: T) | Failure(error: E)
}
