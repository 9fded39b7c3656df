/** Failure-carrying result types shared by the modules of this model. */
module Wrappers {

  datatype Option<+T> = None | Some(value: T)

  /** A value, or the reason the program would have stopped. */
  datatype Result<+R, +E> = Success(value: R) | Failure(error: E)

  /** No value on success; a reason on failure. */
  datatype Outcome<+E> = Pass | Fail(error: E)
}
