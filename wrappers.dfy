/** Failure-compatible wrappers used across the model: Option for Go's nil, Result for an (value, error) pair. */
module Wrappers {

  datatype Option<+T> = None | Some(value: T)

  datatype Result<+T, +E> = Success(value: T) | Failure(error: E)
}
