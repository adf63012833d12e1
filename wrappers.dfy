/** Option and Result values used where the modelled code uses null or throws. */
module Wrappers {

  /** A value that may be absent; stands for a Java reference that may be null. */
  datatype Option<+T> = None | Some(value: T)

  /** The outcome of an operation that either succeeds or raises a checked failure. */
  datatype Result<+T, +E> = Success(value: T) | Failure(error: E)
}
