/** Optional values and results, the shapes Go's `(value, error)` returns take here. */
module Wrappers {

  /** A value that may be absent: Go's `error`, which is either `nil` or an error. */
  datatype Option<+T> = None | Some(value: T)

  /** Either a value or an error. */
  datatype Result<+T, +E> = Ok(value: T) | Err(error: E)
}
