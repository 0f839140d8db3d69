/** Failure-carrying values shared by the other modules. */
module Wrappers {

  /** A value that may be absent, such as an optional JSON field. */
  datatype Option<+T> = None | Some(value: T)

  /** The outcome of an operation that either produces a value or raises an error. */
  datatype Result<+T, +E> = Ok(value: T) | Err(error: E)
}
