/** The Option and Result datatypes used by the store model. */
module Wrappers {

  /** An optional value; `None` stands for Go's `nil` error. */
  datatype Option<+T> = None | Some(value: T)

  /** The outcome of a computation that either succeeds or fails with an error. */
  datatype Result<+R, +E> = Success(value: R) | Failure(error: E)
}
