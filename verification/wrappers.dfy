/** Failure-compatible wrappers shared by the proxy model. */
module Wrappers {

  /** An optional value: Python's `None` versus a present value. */
  datatype Option<+T> = None | Some(value: T)

  /** Either the value an operation produced or the error it answers with. */
  datatype Result<+R, +E> = Success(value: R) | Failure(error: E)
}
