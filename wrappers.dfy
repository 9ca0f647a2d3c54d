/** Failure-carrying wrappers used to model Python's exceptions and its
    not-yet-set attributes as values. */
module Wrappers {

  /** A value that may be absent (an attribute that was never assigned). */
  datatype Option<+T> = None | Some(value: T)

  /** The value of a call that either returns or raises. */
  datatype Result<+T, +E> = Success(value: T) | Failure(error: E)

  /** The outcome of a call that returns nothing or raises. */
  datatype Outcome<+E> = Pass | Fail(error: E)
}
