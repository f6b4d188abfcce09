/** Failure-carrying return values, standing in for the exceptions the
    Python code raises. */
module Wrappers {

  datatype Option<+T> = None | Some(value: T)

  /** `Failure(e)` is a raised exception `e`; `Success(v)` a normal return. */
  datatype Result<+T, +E> = Success(value: T) | Failure(error: E)
}
