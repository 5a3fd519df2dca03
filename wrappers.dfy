/** Optional values and results with an error value: Python's `None` and raised exceptions. */
module Wrappers {

  /** A value that may be absent: a nullable column, a missing dictionary key, `.first()` on no rows. */
  datatype Option<+T> = None | Some(value: T)

  /** The outcome of an operation that may raise. */
  datatype Result<+T, +E> = Ok(value: T) | Err(error: E)
}
