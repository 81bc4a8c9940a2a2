/** Failure-carrying values used where the C++ code returns `false` or
    leaves an output untouched. */
module Wrappers {
  datatype Option<+T> = None | Some(value: T)

  datatype Result<+T, +E> = Success(value: T) | Failure(error: E)
}
