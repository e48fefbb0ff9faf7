/** Option, Result and Outcome: Java's null and thrown exceptions, as values. */
module Wrappers {

  /** A value that may be absent (Java's null). */
  datatype Option<+T> = None | Some(value: T)

  /** A computation that returns a value or throws an error. */
  datatype Result<+R, +E> = Success(value: R) | Failure(error: E)

  /** A `void` computation that completes or throws an error. */
  datatype Outcome<+E> = Pass | Fail(error: E)
}
