/** Optional values and results-or-errors, used where the component reads a
    property that may be missing or an operation that may throw. */
module Wrappers {

  datatype Option<+T> = None | Some(value: T)

  datatype Result<+T, +E> = Success(value: T) | Failure(error: E)
}
