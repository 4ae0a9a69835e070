/** Option and Result, used for PHP's `null` and for exceptions that leave a method. */
module Wrappers {

  /** A value or PHP's `null`. */
  datatype Option<+T> = None | Some(value: T)

  /** A normal return, or an exception thrown out of the operation. */
  datatype Result<+R, +E> = Success(value: R) | Failure(error: E)
}
