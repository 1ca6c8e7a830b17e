/** Option and Result, used for "no such line" and for the error path of
    a cell classification. */
module Wrappers {
  datatype Option<+T> = None | Some(value: T)

  datatype Result<+R, +E> = Success(value: R) | Failure(error: E)
}
