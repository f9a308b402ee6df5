/** Option and Result, shared by every module of the model. */
module Wrappers {

  datatype Option<+T> = None | Some(value: T)

  /** A promise that resolved with `value` or rejected with `error`. */
  datatype Result<+T, +E> = Success(value: T) | Failure(error: E)
}
