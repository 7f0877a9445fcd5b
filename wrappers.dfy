/** Optional values and results with an error, used for the source's
    "property present or not" and for the errors its functions throw. */
module Wrappers {

  datatype Option<+T> = None | Some(value: T)

  datatype Result<+T, +E> = Success(value: T) | Failure(error: E)
}
