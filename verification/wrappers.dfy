/** Option and Result, the failure-carrying values used throughout the model
    for the source's `undefined` returns and thrown exceptions. */
module Wrappers {

  datatype Option<+T> = None | Some(value: T)

  datatype Result<+R, +E> = Success(value: R) | Failure(error: E)
}
