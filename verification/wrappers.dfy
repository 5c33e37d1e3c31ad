/** Failure-compatible result types used for the error paths of the registry. */
module Wrappers {

  datatype Option<+T> = None | Some(value: T)

  /** A value or the exception that the C++ code throws instead of returning it. */
  datatype Result<+R, +E> = Ok(value: R) | Err(error: E)

  /** The outcome of an operation that returns nothing on success. */
  datatype Outcome<+E> = Pass | Fail(error: E)
}
