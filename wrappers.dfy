/** Option and Result, the two failure-carrying datatypes the validator returns. */
module Wrappers {

  datatype Option<+T> = None | Some(value: T)

  /** Either the parsed value or the reason it was refused. */
  datatype Result<+R, +E> = Success(value: R) | Failure(error: E)
}
