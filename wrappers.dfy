/** Option and Result, the two failure-carrying datatypes the model uses. */
module Wrappers {

  datatype Option<+T> = None | Some(value: T)

  /** A Success carries the value; a Failure carries why there is none. */
  datatype Result<+R, +E> = Success(value: R) | Failure(error: E)
}
