/** Option and Result, used for values that may be missing and for calls that may throw. */
module Wrappers {

  /** A value that may be absent (`undefined` or `null` in the modelled code). */
  datatype Option<+T> = None | Some(value: T)

  /** The outcome of a call that either returns a value or throws an error. */
  datatype Result<+T, +E> = Success(value: T) | Failure(error: E)
}
