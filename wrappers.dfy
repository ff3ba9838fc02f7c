/** Failure-carrying values standing in for Java's exceptions and java.util.Optional. */
module Wrappers {

  /** The result of a call that either returns normally or throws `error`. */
  datatype Outcome<+E> = Pass | Fail(error: E)

  /** A computed value, or the exception that would have been thrown instead. */
  datatype Result<+T, +E> = Success(value: T) | Failure(error: E)

  /** java.util.Optional: a value that may be absent. */
  datatype Option<+T> = None | Some(value: T)
}
