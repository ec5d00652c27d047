/** Failure-compatible wrappers used throughout the model. */
module Wrappers {

  /** An optional value; `None` stands for a JavaScript `undefined`. */
  datatype Option<+T> = None | Some(value: T)

  /** The outcome of an operation that may fail (a thrown error or a rejected promise). */
  datatype Result<+T, +E> = Success(value: T) | Failure(error: E)
}
