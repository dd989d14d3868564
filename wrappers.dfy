/** Optional values and failures: Python's `None` and caught exceptions. */
module Wrappers {

  /** A value that may be absent (Python `Optional[T]`). */
  datatype Option<+T> = None | Some(value: T)

  /** The outcome of a call that may raise: `Failure` carries the exception's text. */
  datatype Result<+T> = Ok(value: T) | Failure(error: string)
}
