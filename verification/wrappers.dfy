/** Result types: Go's `(value, error)` pairs and nil-able pointers are
    written with these. */
module Wrappers {

  /** A value that may be absent: a nil pointer, a nil error, an unset variable. */
  datatype Option<+T> = None | Some(value: T)

  /** Either a value or an error: a Go `(T, error)` return whose error is nil
      exactly when the value is meaningful. */
  datatype Result<+R, +E> = Success(value: R) | Failure(error: E)
}
