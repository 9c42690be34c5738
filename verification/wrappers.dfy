/** Failure-carrying datatypes shared by every module of the model. */
module Wrappers {

  /** A value that may be absent: `undefined`/`null` in the modelled code. */
  datatype Option<+T> = None | Some(value: T)

  /** A computed value, or the error a modelled method throws instead. */
  datatype Result<+T, +E> = Success(value: T) | Failure(error: E)

  /** Completion of an operation that computes nothing, or the error it throws. */
  datatype Outcome<+E> = Pass | Fail(error: E)
}
