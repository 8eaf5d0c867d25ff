/** Option and Result: an argument the caller may omit, and an operation that may fail. */
module Wrappers {

  /** A value that may be absent (a JavaScript argument that was not passed, or `undefined`). */
  datatype Option<+T> = None | Some(value: T)

  /** The outcome of an operation that either succeeds with a value or fails with an error. */
  datatype Result<+T, +E> = Ok(value: T) | Err(error: E)
}
