/** Failure-compatible result types shared by every module of the model. */
module Wrappers {

  /** A value that may be absent: a missing JSON field, an unmatched lookup. */
  datatype Option<+T> = None | Some(value: T)

  /** The outcome of an operation that either produces a value or fails with an error. */
  datatype Result<+R, +E> = Success(value: R) | Failure(error: E)
}
