/** Success/failure values standing in for Go's `(value, error)` return pairs. */
module Wrappers {

  datatype Option<+T> = None | Some(value: T)

  /** `Failure(e)` is a Go call that returned a non-nil error `e`. */
  datatype Result<+T, +E> = Success(value: T) | Failure(error: E)
}
