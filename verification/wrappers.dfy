/** Option and Result: a C# null and a thrown exception, as values. */
module Wrappers {

  /** `None` stands for a C# null reference. */
  datatype Option<+T> = None | Some(value: T)

  /** `Failure` stands for an exception that ends the current operation. */
  datatype Result<+T, +E> = Success(value: T) | Failure(error: E)
}
