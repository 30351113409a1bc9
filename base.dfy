/** Failure-carrying values used in place of Java's null and exceptions. */
module Base {

  /** A Java reference or boxed value that may be null. */
  datatype Option<+T> = None | Some(value: T)

  /** The value of a Java call that either returns or throws. */
  datatype Result<+T, +E> = Success(value: T) | Failure(error: E)

  /** The outcome of a Java `void` call that either returns or throws. */
  datatype Outcome<+E> = Pass | Fail(error: E)
}
