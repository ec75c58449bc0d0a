/** Failure-carrying value types shared by the filter model. */
module Wrappers {

  /** A value that may be absent; stands for a C pointer that may be null. */
  datatype Option<+T> = None | Some(value: T)

  /** Either a computed value or the error that stopped the computation. */
  datatype Result<+R, +E> = Success(value: R) | Failure(error: E)
}
