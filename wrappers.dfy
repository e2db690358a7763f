/**
 * Option stands for a Go pointer that may be nil (or a map key that may be
 * absent); Result stands for Go's (value, error) return pair.
 */
module Wrappers {

  datatype Option<+T> = None | Some(value: T)

  datatype Result<+T, +E> = Success(value: T) | Failure(error: E)
}
