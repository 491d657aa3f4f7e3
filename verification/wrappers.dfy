/** Optional values and error-carrying results, standing in for Python's `None` and exceptions. */
module Wrappers {

  /** `None` is Python's `None` (a skipped class, a missing classifier). */
  datatype Option<+T> = None | Some(value: T)

  /** A computation that either produced a value or raised an error. */
  datatype Result<+T, +E> = Ok(value: T) | Err(error: E)
}
