/** Option and Result, the two failure-carrying datatypes the model uses. */
module Wrappers {

  /** A value or nothing: JavaScript's `null` / `undefined` results. */
  datatype Option<+T> = None | Some(value: T)

  /** A value or the error a JavaScript statement would throw. */
  datatype Result<+T, +E> = Success(value: T) | Failure(error: E)
}
