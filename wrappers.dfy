/** Option and Result types shared by the modules of this model. */
module Wrappers {

  /** A value that may be absent: a handler that makes no log call yields `None`. */
  datatype Option<+T> = None | Some(value: T)

  /** Either a value or the exception a handler raises instead of completing. */
  datatype Result<+T, +E> = Success(value: T) | Failure(error: E)
}
