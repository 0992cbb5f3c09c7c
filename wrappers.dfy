/** Option and Result, the two failure-carrying values the model uses. */
module Wrappers {

  /** A value that may be missing: `None` stands for JavaScript's `undefined`. */
  datatype Option<+T> = None | Some(value: T)

  /** The outcome of a computation that may throw: `Failure` carries the thrown error. */
  datatype Result<+R, +E> = Success(value: R) | Failure(error: E)
}
