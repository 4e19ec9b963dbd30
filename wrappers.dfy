/** Option and failure-carrying results used throughout the model. */
module Wrappers {

  /** A value that may be absent: the model of a nullable pointer. */
  datatype Option<+T> = None | Some(value: T)

  /** The outcome of an operation that the source aborts on with an assertion. */
  datatype Result<+T, +E> = Ok(value: T) | Err(error: E)
}
