/** The .NET exceptions the modelled code can raise, by kind and message. */
module Errors {

  datatype Error =
    | ArgumentException(message: string)
    | InvalidOperationException(message: string)
    // `result.Addresses![0]` on a null list
    | NullReferenceException
    // `result.Addresses![0]` on an empty list
    | ArgumentOutOfRangeException
}
