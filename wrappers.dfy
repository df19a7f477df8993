/** Optional values and results with an error, as used throughout the model. */
module Wrappers {

  /** A value that may be absent (JavaScript's `null` / `undefined`). */
  datatype Option<+T> = None | Some(value: T)

  /** The result of an operation that either succeeds or throws an error. */
  datatype Result<+T, +E> = Ok(value: T) | Err(error: E)
}
