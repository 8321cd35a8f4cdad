/** The two shapes the client's nullable values and thrown exceptions take in the model. */
module Wrappers {

  /** A value the source may hold as null. */
  datatype Option<+T> = None | Some(value: T)

  /** What an operation returns, or the exception it throws instead. */
  datatype Result<+T, +E> = Ok(value: T) | Err(error: E)
}
