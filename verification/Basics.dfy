/** Small datatypes shared by every module of the project. */
module Basics {

  /** A value that may be absent (Python's `None`, TypeScript's `undefined`). */
  datatype Option<+T> = None | Some(value: T)

  /** The result of an operation that the source may end with an exception. */
  datatype Result<+T, +E> = Ok(value: T) | Err(error: E)
}
