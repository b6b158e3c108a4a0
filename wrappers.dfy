/** Failure-carrying values used where the bridge would otherwise terminate the process. */
module Wrappers {

  datatype Option<+T> = None | Some(value: T)

  /** A computed value, or the error that stopped the computation. */
  datatype Result<+T, +E> = Success(value: T) | Failure(error: E)

  /** The outcome of an action that produces no value. */
  datatype Outcome<+E> = Pass | Fail(error: E)
}
