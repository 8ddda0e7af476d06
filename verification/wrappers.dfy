/** Failure-carrying values used across the model in place of Go's nil
    results and error returns. */
module Wrappers {

  /** A value that may be absent (a nil result or "not found" in Go). */
  datatype Option<+T> = None | Some(value: T)

  /** Either a value or an error, as Go's `(T, error)` pair where exactly
      one side is meaningful. */
  datatype Result<+T, +E> = Ok(value: T) | Err(error: E)
}
