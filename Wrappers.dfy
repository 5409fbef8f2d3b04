/** Optional values and results with an error, used wherever the source
    returns None, raises, or answers with an HTTP error status. */
module Wrappers {

  datatype Option<+T> = None | Some(value: T)

  datatype Result<+R, +E> = Success(value: R) | Failure(error: E)
}
