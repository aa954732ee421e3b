/** Failure-carrying values used in place of the exceptions the planner raises. */
module Wrappers {

  datatype Option<+T> = None | Some(value: T)

  /** A value, or the error that stopped its computation. */
  datatype Result<+T, +E> = Ok(value: T) | Err(error: E)

  /** Success without a value, or the error that stopped the step. */
  datatype Outcome<+E> = Pass | Fail(error: E)
}
