/** Stock failure-compatible wrappers used across the model. */
module Wrappers {

  /** A value that may be absent: Go's nil pointer or missing result. */
  datatype Option<+T> = None | Some(value: T)

  /** A value or an error, for Go's `(T, error)` returns. */
  datatype Result<+T, +E> = Ok(value: T) | Err(error: E)
}
