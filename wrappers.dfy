/** Failure-carrying values: Java's null becomes `None`, a thrown exception becomes `Failure`/`Fail`. */
module Wrappers {

  datatype Option<+T> = None | Some(value: T)

  /** The outcome of an operation that returns a value or fails with an error. */
  datatype Result<+R, +E> = Success(value: R) | Failure(error: E)

  /** The outcome of an operation that returns nothing (a Java `void` method) or fails. */
  datatype Outcome<+E> = Pass | Fail(error: E)
}
