/** Option and Result datatypes used across the scheduler model. */
module Wrappers {

  /** A value that may be absent (a JavaScript field that was never assigned). */
  datatype Option<+T> = None | Some(value: T)

  /** The outcome of an operation that can be rejected. */
  datatype Result<+R, +E> = Success(value: R) | Failure(error: E)
}
