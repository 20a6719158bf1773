/** Option and Result values used for JavaScript's `undefined`/`null` and for thrown errors. */
module Wrappers {

  datatype Option<+T> = None | Some(value: T)

  datatype Result<+R, +E> = Ok(value: R) | Err(error: E)

  /** An operation that either completes or fails with an error and returns nothing. */
  datatype Outcome<+E> = Pass | Fail(error: E)
}
