/** Optional values and failure-carrying results used across the model. */
module Wrappers {

  datatype Option<+T> = None | Some(value: T)

  /** The outcome of one call of an operation that may raise: its value or the exception. */
  datatype Result<+T, +E> = Ok(value: T) | Err(error: E)
}
