/** Optional values and error-or-value results. */
module Wrappers {

  /** A value that may be absent (`undefined`/`null`). */
  datatype Option<T> = None | Some(value: T)

  /** The outcome of an operation that may throw. */
  datatype Result<T, E> = Ok(value: T) | Err(error: E)
}
