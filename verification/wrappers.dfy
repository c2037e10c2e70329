/** Option and Result, used for Go's nil-or-error returns and for
    values that are either present or carry an error. */
module Wrappers {

  datatype Option<+T> = None | Some(value: T)

  datatype Result<+R, +E> = Success(value: R) | Failure(error: E)
}
