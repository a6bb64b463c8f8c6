/** Failure-compatible wrappers shared by the modules of this model: `Option` for Go's
    "value or nil" and "nil or error" results, `Result` for a (value, error) pair. */
module Wrappers {

  datatype Option<+T> = None | Some(value: T)

  datatype Result<+T, +E> = Success(value: T) | Failure(error: E)
}
