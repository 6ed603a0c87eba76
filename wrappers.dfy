/** Stock failure-carrying datatypes used across the model. */
module Wrappers {
  /** A value that may be absent: JavaScript `null`/`undefined` where the source allows it. */
  datatype Option<+T> = None | Some(value: T)

  /** A result or the exception a call throws synchronously. */
  datatype Result<+T, +E> = Success(value: T) | Failure(error: E)
}
