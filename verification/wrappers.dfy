/** Failure-carrying result types used in place of Go's `(value, error)` pairs and panics. */
module Wrappers {

  datatype Option<+T> = None | Some(value: T)

  datatype Result<+T, +E> = Ok(value: T) | Err(error: E)

  /** The result of an operation that returns only an `error` in Go. */
  datatype Outcome<+E> = Pass | Fail(error: E)
}
