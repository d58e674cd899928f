/** Failure-carrying values shared by the rest of the model: a JavaScript
    `null`-able / Python `None`-able value, the settled state of a promise or
    of a `try` block, and the outcome of an operation that returns nothing. */
module Wrappers {

  datatype Option<+T> = None | Some(value: T)

  datatype Result<+R, +E> = Success(value: R) | Failure(error: E)

  /** A promise that resolves to nothing, or rejects with an error. */
  datatype Outcome<+E> = Pass | Fail(error: E)
}
