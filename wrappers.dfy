/** Optional values and results with an error, used wherever the server
    can find nothing or reject its input. */
module Wrappers {

  datatype Option<+T> = None | Some(value: T)

  datatype Result<+T, +E> = Success(value: T) | Failure(error: E)
}
