/** Option and Result, the two failure-carrying shapes the gateway model uses. */
module Wrappers {

  /** A value that may be missing: Python's `None` versus a present value. */
  datatype Option<+T> = None | Some(value: T)

  /** Either a value or the error that replaced it (an exception in the source). */
  datatype Result<+R, +E> = Success(value: R) | Failure(error: E)
}
