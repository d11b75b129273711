/** Option and Result, used for payload fields that may be absent and for the
    errors a prediction request can end in. */
module Wrappers {

  datatype Option<+T> = None | Some(value: T)

  datatype Result<+R, +E> = Success(value: R) | Failure(error: E)
}
