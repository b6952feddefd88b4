/** Option and outcome types used in place of JavaScript's null and thrown errors. */
module Wrappers {

  datatype Option<+T> = None | Some(value: T)

  /** The result of a call that either returns a value or throws. */
  datatype Result<+R, +E> = Success(value: R) | Failure(error: E)

  /** The result of a call that returns nothing or throws. */
  datatype Outcome<+E> = Pass | Fail(error: E)
}
