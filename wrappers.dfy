/** The optional value and the success-or-error outcome used across the model
    for Python's unset attributes and raised exceptions. */
module Wrappers {

  /** An attribute or cache that may not have been set yet. */
  datatype Option<+T> = None | Some(value: T)

  /** The outcome of an operation that either returns a value or raises. */
  datatype Result<+T, +E> = Success(value: T) | Failure(error: E)
}
