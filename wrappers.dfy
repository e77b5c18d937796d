/** Failure-carrying values used wherever the Swift source throws or returns an optional. */
module Wrappers {

  datatype Option<+T> = None | Some(value: T)

  /** The value a Swift `throws` function returns, or the error it throws. */
  datatype Result<+R, +E> = Success(value: R) | Failure(error: E)

  /** The outcome of a Swift `throws` function that returns nothing. */
  datatype Outcome<+E> = Pass | Fail(error: E)
}
