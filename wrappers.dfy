/** Optional values and results with an error, used for the source's `null`/`undefined`
    values and for the operations that throw. */
module Wrappers {

  datatype Option<+T> = None | Some(value: T)

  datatype Result<+T, +E> = Success(value: T) | Failure(error: E)
}
