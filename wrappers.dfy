/** Small failure-carrying datatypes used across the model. */
module Wrappers {

  /** A value that may be absent: SQL NULL, a missing JSON key, Python's None. */
  datatype Option<+T> = None | Some(value: T)

  /** The value an operation produces, or the exception it raises instead. */
  datatype Result<+T, +E> = Ok(value: T) | Err(error: E)

  /** An operation that produces nothing but may raise. */
  datatype Outcome<+E> = Pass | Fail(error: E)
}
