/** Failure-carrying results shared by every module of the session model. */
module Wrappers {

  /** A value that may be absent (JavaScript `null`/`undefined`). */
  datatype Option<+T> = None | Some(value: T)

  /** The outcome of an operation that either succeeds with a value or
      rejects/throws with an error. */
  datatype Result<+T, +E> = Success(value: T) | Failure(error: E)
}
