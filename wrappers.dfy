/**
 * Error values and the two shapes a Go call can return them in: `Outcome` for
 * a bare `error`, `Result<R>` for a `(value, error)` pair.
 */
module Wrappers {

  /** A Go `error` value, identified by its message. */
  datatype Error = Error(message: string)

  datatype Option<+T> = None | Some(value: T)

  /** `error`: Pass is `nil`, Fail carries the error. */
  datatype Outcome = Pass | Fail(error: Error)

  /** `(R, error)`: exactly one of the two is meaningful. */
  datatype Result<+R> = Success(value: R) | Failure(error: Error)
}
