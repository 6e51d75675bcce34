/** Optional values and results with an error, used for `null`/`undefined` and for rejected
    promises. */
module Wrappers {

  datatype Option<+T> = None | Some(value: T)

  datatype Result<+R, +E> = Success(value: R) | Failure(error: E)
}
