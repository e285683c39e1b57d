/** Failure-carrying results, standing in for the exceptions the label classes raise. */
module Wrappers {

  datatype Option<+T> = None | Some(value: T)

  /** A computed value, or the error that the source raises instead. */
  datatype Result<+R, +E> = Success(value: R) | Failure(error: E)

  /** Success without a value (a setter that returned), or the error it raised. */
  datatype Outcome<+E> = Pass | Fail(error: E)
}
