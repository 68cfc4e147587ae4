/** Optional values and results with an error, shared by every module of the model. */
module Wrappers {

  /** A value that may be absent (JavaScript `undefined`, Python `None`, no file chosen). */
  datatype Option<+T> = None | Some(value: T)

  /** The outcome of a step that either produces a value or raises with a message. */
  datatype Result<+T, +E> = Ok(value: T) | Err(error: E)
}
