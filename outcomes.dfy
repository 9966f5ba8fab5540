/** Failure-carrying datatypes shared by the whole model: Go's `(T, error)`
    and bare `error` returns become `Result` and `Outcome` values. */
module Outcomes {

  datatype Option<+T> = None | Some(value: T)

  /** A value or an error, as in Go's `(T, error)` pair. */
  datatype Result<+T, +E> = Ok(value: T) | Err(error: E)

  /** Success or an error, as in a Go function that returns only `error`. */
  datatype Outcome<+E> = Pass | Fail(error: E)
}
