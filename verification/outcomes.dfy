/** Optional values and success-or-error results used throughout the model. */
module Outcomes {

  /** A value that may be absent; stands for Go's nil-able pointers. */
  datatype Option<+T> = None | Some(value: T)

  /** The outcome of a step: a value, or the error that stopped the read. */
  datatype Result<+T, +E> = Success(value: T) | Failure(error: E)
}
