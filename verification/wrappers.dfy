/** Option and Result: the failure-carrying values used in place of Python's
    `None` returns and raised `ValueError`s. */
module Wrappers {

  datatype Option<+T> = None | Some(value: T)

  datatype Result<+R, +E> = Success(value: R) | Failure(error: E)
}
