/** Optional values and failures, as JavaScript's `undefined` and thrown errors are modelled here. */
module Wrappers {

  /** `None` stands for a JavaScript value that is `null` or `undefined`. */
  datatype Option<+T> = None | Some(value: T)

  /** `Failure` stands for an exception thrown by the operation. */
  datatype Result<+R, +E> = Success(value: R) | Failure(error: E)
}
