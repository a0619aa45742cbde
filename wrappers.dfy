/** Failure-carrying datatypes used to model Python exceptions as values. */
module Wrappers {

  /** A value that may be absent (Python's `None`). */
  datatype Option<T> = None | Some(value: T)

  /** The value an expression computes, or the exception it raises. */
  datatype Result<T, E> = Ok(value: T) | Err(error: E)

  /** The completion of a statement that returns nothing, or the exception it raises. */
  datatype Outcome<E> = Pass | Fail(error: E)
}
