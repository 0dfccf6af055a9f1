/** Optional values and success/failure results, standing for JavaScript's
    `null`/`undefined` and for a thrown error. */
module Wrappers {

  datatype Option<+T> = None | Some(value: T)

  datatype Result<+R, +E> = Success(value: R) | Failure(error: E)
}
