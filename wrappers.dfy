/** Option, Result and Outcome values used throughout the model. */
module Wrappers {

  /** A value that may be absent: the source's `undefined` or `null`. */
  datatype Option<+T> = None | Some(value: T)

  /** A computation that either yields a value or stops with an error. */
  datatype Result<+R, +E> = Success(value: R) | Failure(error: E)

  /** A computation that yields nothing or stops with an error (a thrown exception). */
  datatype Outcome<+E> = Pass | Fail(error: E)
}
