/** Option and Result values shared by the modules of this model. */
module Wrappers {

  /** A value that may be absent; stands for Go's nil pointers and maps. */
  datatype Option<+T> = None | Some(value: T)

  /** Either a value or the error that replaced it; stands for Go's `(T, error)` pairs. */
  datatype Result<+T, +E> = Success(value: T) | Failure(error: E)
}
