/** Option and Result, the shapes the script's "value or None" and "value or fault" take. */
module Wrappers {

  datatype Option<+T> = None | Some(value: T)

  datatype Result<+T, +E> = Success(value: T) | Failure(error: E)
}
