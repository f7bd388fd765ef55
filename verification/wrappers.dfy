/** Option and Result, the failure-carrying values that stand in for Python's
    `None` returns and raised exceptions. */
module Wrappers {

  datatype Option<+T> = None | Some(value: T)

  datatype Result<+R, +E> = Success(value: R) | Failure(error: E)
}
