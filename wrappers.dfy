/** Failure-compatible result types standing in for Python's return-or-raise. */
module Wrappers {

  datatype Option<+T> = None | Some(value: T)

  /** A value-carrying outcome: `Success(v)` for a return, `Failure(e)` for a raise. */
  datatype Result<+R, +E> = Success(value: R) | Failure(error: E)

  /** An outcome of an operation that returns nothing (Python `None`) or raises. */
  datatype Outcome<+E> = Pass | Fail(error: E)
}
