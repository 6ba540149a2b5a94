/** `Option` and `Result`, used across the model. */
module Wrappers {

  /** A value that may be absent; models a JavaScript `null`-initialised slot. */
  datatype Option<+T> = None | Some(value: T)

  /** The settled value of a promise: fulfilled with a value or rejected with a reason. */
  datatype Result<+T, +E> = Success(value: T) | Failure(error: E)
}
