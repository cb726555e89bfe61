/** Failure-carrying result types shared by the modules of this model. */
module Wrappers {

  datatype Option<+T> = None | Some(value: T)

  /** Either a value, or the value a JavaScript `throw` raised. */
  datatype Result<+R, +E> = Success(value: R) | Failure(error: E)
}
