/** Failure-carrying datatypes used to model Java's `null` and thrown exceptions. */
module Wrappers {

  /** A value that may be absent; `None` plays the part of a Java `null`. */
  datatype Option<+T> = None | Some(value: T)

  /** The outcome of a Java call that returns a value or throws. */
  datatype Result<+R, +E> = Success(value: R) | Failure(error: E)

  /** The outcome of a Java call that returns nothing (`void`/`Void`) or throws. */
  datatype Outcome<+E> = Pass | Fail(error: E)
}
