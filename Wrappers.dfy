/** Option and Result, the failure-carrying values used throughout the model. */
module Wrappers {

  datatype Option<+T> = None | Some(value: T)

  /** An operation that either yields a value or raises an exception described by `error`. */
  datatype Result<+R, +E> = Success(value: R) | Failure(error: E)
}
