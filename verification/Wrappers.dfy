/** Optional values and results, in the style of the Go (value, error) pairs they replace. */
module Wrappers {
  datatype Option<+T> = None | Some(value: T)

  datatype Result<+T, +E> = Success(value: T) | Failure(error: E)
}
