/** Option and Result, the two failure-carrying datatypes the model uses. */
module Wrappers {

  /** A value that may be absent; Python's `None` is `None` here. */
  datatype Option<+T> = None | Some(value: T)

  /** Either a successful value or the error an operation raised. */
  datatype Result<+R, +E> = Success(value: R) | Failure(error: E)
}
