/** Small wrapper datatypes shared by the other modules. */
module Basics {
  /** A value that may be absent: JavaScript's `null`, Python's `None`. */
  datatype Option<T> = None | Some(value: T)

  /** The outcome of an operation that either answers or reports an error. */
  datatype Result<T, E> = Success(value: T) | Failure(error: E)
}
