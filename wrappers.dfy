/** Result datatypes shared by the other modules. */
module Wrappers {

  datatype Option<+T> = None | Some(value: T)

  /** The outcome of an operation that either completes or raises an exception `E`. */
  datatype Outcome<+E> = Pass | Fail(error: E)

  /** The outcome of an operation that either returns an `R` or raises an exception `E`. */
  datatype Result<+R, +E> = Success(value: R) | Failure(error: E)
}
