/** Option and Result, used for the source's nullable columns and raised errors. */
module Wrappers {

  datatype Option<+T> = None | Some(value: T)

  /** A committed value, or the error for which the transaction is abandoned. */
  datatype Result<+R, +E> = Success(value: R) | Failure(error: E)
}
