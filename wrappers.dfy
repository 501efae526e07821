/** Optional values and results with an error, used for the source's `null`/`undefined` and thrown errors. */
module Wrappers {

  /** `None` stands for JavaScript's `null` or `undefined`. */
  datatype Option<+T> = None | Some(value: T)

  /** `Failure` stands for an error thrown by the source. */
  datatype Result<+T, +E> = Success(value: T) | Failure(error: E)
}
