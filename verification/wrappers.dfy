/** Option and outcome values used where the C# code uses null or throws. */
module Wrappers {

  /** A value that may be absent: the model of a C# nullable or null reference. */
  datatype Option<+T> = None | Some(value: T)

  /** The completion of an operation that returns nothing but may throw. */
  datatype Outcome<+E> = Pass | Fail(error: E)

  /** The completion of an operation that returns a value or throws. */
  datatype Result<+R, +E> = Success(value: R) | Failure(error: E)
}
