/** Optional values and results with an error, used for Python's
    "attribute may be absent" and "raises an exception" outcomes. */
module Wrappers {

  datatype Option<+T> = None | Some(value: T)

  datatype Result<+R, +E> = Success(value: R) | Failure(error: E)
}
