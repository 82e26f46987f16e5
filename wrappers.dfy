/** Optional values and results of the handlers. */
module Wrappers {

  /** A value that may be absent: a missing request field or a SQL NULL. */
  datatype Option<+T> = None | Some(value: T)

  /** What a handler answers: a value on success, or the kind of error it reported. */
  datatype Result<+T, +E> = Ok(value: T) | Err(error: E)
}
