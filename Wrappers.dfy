/** Option and Result datatypes used throughout the model. */
module Wrappers {

  /** A value that may be absent (JavaScript `undefined` / `null`). */
  datatype Option<+T> = None | Some(value: T)

  /** The result of an operation that may throw: a value, or the thrown error. */
  datatype Result<+T, +E> = Success(value: T) | Failure(error: E)
}
