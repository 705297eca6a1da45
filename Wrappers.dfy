/** Failure-carrying return values used in place of Java's null returns and exceptions. */
module Wrappers {

  /** A value that may be absent (Java's `null`). */
  datatype Option<+T> = None | Some(value: T)

  /** Either a value or an error (a Java method that returns a value or throws). */
  datatype Result<+R, +E> = Success(value: R) | Failure(error: E)

  /** Success without a value, or an error (a `void` Java method that may throw). */
  datatype Outcome<+E> = Pass | Fail(error: E)
}
