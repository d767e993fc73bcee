/** Success/failure carriers used in place of Java's null returns and checked exceptions. */
module Outcomes {

  /** A value that may be absent (Java's `null` return). */
  datatype Option<+T> = None | Some(value: T)

  /** A value, or the error an operation raised instead of producing it. */
  datatype Result<+T, +E> = Success(value: T) | Failure(error: E)

  /** The outcome of an operation that returns nothing (Java `void`) but may raise an error. */
  datatype Outcome<+E> = Pass | Fail(error: E)
}
