/** Failure-carrying datatypes used in place of Java's null references and exceptions. */
module Wrappers {

  /** A value that may be absent (a Java reference that may be null). */
  datatype Option<+T> = None | Some(value: T)

  /** The outcome of an operation that either yields a value or throws. */
  datatype Result<+T, +E> = Ok(value: T) | Err(error: E)

  /** The outcome of a check that returns nothing when it passes and throws when it fails. */
  datatype Outcome<+E> = Pass | Fail(error: E)
}
