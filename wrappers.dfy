/** Optional values and results that carry either a value or an error. */
module Wrappers {

  /** A value that may be absent, as a missing key of a decoded JSON object is. */
  datatype Option<+T> = None | Some(value: T)

  /** The outcome of an operation that either succeeds or raises an error. */
  datatype Result<+T, +E> = Ok(value: T) | Err(error: E)
}
