/** Failure-carrying result types shared by the other modules. */
module Wrappers {

  /** A value that may be absent (Python's `None`). */
  datatype Option<T> = None | Some(value: T)

  /** A computation that either returns a value or raises an error. */
  datatype Result<T, E> = Ok(value: T) | Err(error: E)
}
