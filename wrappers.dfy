/** Option and Result, the shapes a Go `(*T, error)` or `(T, error)` return takes in this model. */
module Wrappers {

  datatype Option<+T> = None | Some(value: T)

  datatype Result<+T, +E> = Ok(value: T) | Err(error: E)

  /** The outcome of a call that returns only an `error`. */
  datatype Outcome<+E> = Pass | Fail(error: E)
}
