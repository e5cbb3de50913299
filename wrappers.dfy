/** Return types for absent values and raised errors. */
module Wrappers {

  /** A value that may be absent (Ruby's `nil`). */
  datatype Option<+T> = None | Some(value: T)

  /** A value, or the error that was raised instead of returning one. */
  datatype Result<+R, +E> = Success(value: R) | Failure(error: E)

  /** Completion of a call made for its effects: it returned, or it raised `error`. */
  datatype Outcome<+E> = Pass | Fail(error: E)
}
