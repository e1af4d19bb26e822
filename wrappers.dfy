/** Optional values and success/failure outcomes shared by the request model. */
module Wrappers {

  /** A value that may be absent; stands for a JavaScript `T | undefined`. */
  datatype Option<+T> = None | Some(value: T)

  /** The settled outcome of an asynchronous call: fulfilled with a value or rejected with an error. */
  datatype Result<+R, +E> = Success(value: R) | Failure(error: E)
}
