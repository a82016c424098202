/** Failure-carrying return values: Go's `(value, error)` pairs and bare `error` results. */
module Wrappers {

  /** A value that may be absent (a nil pointer or nil error in Go). */
  datatype Option<+T> = None | Some(value: T)

  /** A value or the error that prevented computing it. */
  datatype Result<+T, +E> = Ok(value: T) | Err(error: E)

  /** An operation that returns only an error: `Pass` is Go's `nil`. */
  datatype Outcome<+E> = Pass | Fail(error: E)
}
