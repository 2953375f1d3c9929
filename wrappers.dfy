/** Optional values and results with an error, shared by every module of the model. */
module Wrappers {

  /** A value that may be absent (Python `None`, JavaScript `null`/`undefined`). */
  datatype Option<+T> = None | Some(value: T)

  /** The outcome of a call that may raise instead of returning. */
  datatype Result<+R, +E> = Success(value: R) | Failure(error: E)
}
