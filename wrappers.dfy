/** Optional values and results with an error value, used wherever the
    source returns None or raises. */
module Wrappers {
  datatype Option<+T> = None | Some(value: T)

  datatype Result<+R, +E> = Success(value: R) | Failure(error: E)
}
