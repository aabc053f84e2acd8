/** Failure-carrying results shared by every module of the model. */
module Wrappers {

  /** An optional value: the source's `Option`. */
  datatype Option<+T> = None | Some(value: T)

  /** A value or the error that stopped the computation (a panic of the source). */
  datatype Result<+T, +E> = Ok(value: T) | Err(error: E)
}
