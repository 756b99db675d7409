/** Failure-compatible wrappers shared by the other modules. */
module Wrappers {

  /** A value that may be absent: Python's `None` or a missing dictionary key. */
  datatype Option<+T> = None | Some(value: T)

  /** The outcome of a call that may raise: its value, or the text of the exception. */
  datatype Result<+R, +E> = Success(value: R) | Failure(error: E)
}
