/** Failure-compatible values used for the exceptions the modelled code raises. */
module Outcomes {

  datatype Option<+T> = None | Some(value: T)

  /** The value a call returns, or the exception it raises. */
  datatype Result<+R, +E> = Success(value: R) | Failure(error: E)

  /** A call that returns nothing of interest, or the exception it raises. */
  datatype Outcome<+E> = Pass | Fail(error: E)
}
