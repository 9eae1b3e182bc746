/** Failure-carrying results: the model's stand-in for values that may be
    missing (`null`/`undefined`) and for thrown `Error`s. */
module Wrappers {

  /** A value that may be absent, as a foreign call's nullable return. */
  datatype Option<+T> = None | Some(value: T)

  /** Either the computed value or the error the source would throw. */
  datatype Result<+R, +E> = Success(value: R) | Failure(error: E)
}
