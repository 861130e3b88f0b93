/** Optional values and results with an error, used across the model. */
module Wrappers {

  /** A value that may be absent: JavaScript's `undefined`/`null` where the source tests for it. */
  datatype Option<+T> = None | Some(value: T)

  /** The outcome of an operation that can throw in the source. */
  datatype Result<+T, +E> = Ok(value: T) | Err(error: E)
}
