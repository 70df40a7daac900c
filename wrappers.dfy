/** Option and Result, the failure-carrying datatypes used across the model. */
module Wrappers {

  datatype Option<+T> = None | Some(value: T)

  /** The outcome of an operation that the Java code may end with an exception. */
  datatype Result<+R, +E> = Success(value: R) | Failure(error: E)
}
