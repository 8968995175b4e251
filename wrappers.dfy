/** Option and Result, used for the PHP code's `null`/`false` returns and its exceptions. */
module Wrappers {

  datatype Option<+T> = None | Some(value: T)

  datatype Result<+R, +E> = Success(value: R) | Failure(error: E)

  /** A step that either goes through or throws. */
  datatype Outcome<+E> = Pass | Fail(error: E)
}
