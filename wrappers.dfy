// Option, Result and Outcome: the shapes used for PHP's null returns and exceptions.
module Wrappers {
  datatype Option<T> = None | Some(value: T)

  /** A computation that returns a value or fails (PHP: throws). */
  datatype Result<T, E> = Success(value: T) | Failure(error: E)

  /** A computation run for its effect that completes or fails. */
  datatype Outcome<E> = Pass | Fail(error: E)
}
