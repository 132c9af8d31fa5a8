/** Optional values (C# nullable types) and results of operations that can throw. */
module Wrappers {

  /** A C# `T?` or a nullable reference: `None` stands for null. */
  datatype Option<+T> = None | Some(value: T)

  /** The outcome of an operation that either returns a value or throws. */
  datatype Result<+R, +E> = Success(value: R) | Failure(error: E)
}
