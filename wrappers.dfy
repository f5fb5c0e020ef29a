/** Optional values: Go's nil function options and nil errors. */
module Wrappers {

  datatype Option<+T> = None | Some(value: T)

  /** A value or an error, as a Go function returning `(T, error)` chooses one. */
  datatype Result<+T, +E> = Ok(value: T) | Err(error: E)
}
