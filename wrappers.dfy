/** Option and Result, the two ways the model says "maybe" and "value or Go error". */
module Wrappers {

  datatype Option<+T> = None | Some(value: T)

  datatype Result<+R, +E> = Success(value: R) | Failure(error: E)
}
