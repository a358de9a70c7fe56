/** Failure-carrying wrappers used to model Java's null returns and checked exceptions. */
module Results {

  /** A value that may be absent; models a Java reference that may be null. */
  datatype Option<+T> = None | Some(value: T)

  /** Either a value or the exception the Java code would have thrown instead. */
  datatype Result<+T, +E> = Success(value: T) | Failure(error: E)

  /** A check that either passes or fails with an error, and carries no value. */
  datatype Outcome<+E> = Pass | Fail(error: E)
}
