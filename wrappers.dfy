/** Optional values and results, standing in for Go's nil and (value, error) pairs. */
module Wrappers {

  /** A Go value that may be nil. */
  datatype Option<T> = None | Some(value: T)

  /** A Go (value, error) pair: exactly one of the two is meaningful. */
  datatype Result<T, E> = Ok(value: T) | Err(error: E)
}
