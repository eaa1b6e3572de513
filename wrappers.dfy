/** Option and Result datatypes shared by the modules. */
module Wrappers {

  /** An optional value: `None` stands for Python's `None` / a missing key. */
  datatype Option<+T> = None | Some(value: T)

  /** The outcome of an operation that the source lets raise an exception. */
  datatype Result<+T, +E> = Success(value: T) | Failure(error: E)
}
