/** Failure-carrying result types shared by the Totems library model and the mirror contract. */
module Wrappers {

  /** An optional value, as `std::optional` in the library. */
  datatype Option<+T> = None | Some(value: T)

  /** A value or the error that aborted the computation. */
  datatype Result<+R, +E> = Success(value: R) | Failure(error: E)

  /** The outcome of an action that returns nothing: it commits, or a `check` aborts it. */
  datatype Outcome<+E> = Pass | Fail(error: E)
}
