/** Failure-carrying result types shared by every module of the model. */
module Wrappers {

  /** Python's `Optional[X]`: either a value or `None`. */
  datatype Option<+T> = None | Some(value: T)

  /** A computation that either produces a value or raises with a message (`str(e)`). */
  datatype Result<+T, +E> = Success(value: T) | Failure(error: E)
}
