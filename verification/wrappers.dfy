/** Option and Result, the failure-carrying datatypes used throughout the model. */
module Wrappers {

  /** A value that may be absent; stands for a field that is still `undefined` or a nullable reference. */
  datatype Option<+T> = None | Some(value: T)

  /** The outcome of an operation that can fail with an error of type E. */
  datatype Result<+R, +E> = Success(value: R) | Failure(error: E)
}
