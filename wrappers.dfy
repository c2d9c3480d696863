/** Failure-compatible wrappers: Go's `(T, error)` pairs and nil-able values. */
module Wrappers {
  datatype Option<+T> = None | Some(value: T)

  datatype Result<+T, +E> = Ok(value: T) | Err(error: E)
}
