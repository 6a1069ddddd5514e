/** Option and Result, the two failure-carrying wrappers the model uses. */
module Wrappers {

  /** A value that may be absent (Python's None). */
  datatype Option<+T> = None | Some(value: T)

  /** Either a value or the exception the source would raise. */
  datatype Result<+T, +E> = Ok(value: T) | Err(error: E)
}
