/** Option and Result values used by the harness model. */
module Wrappers {

  /** A value that may be absent: an omitted keyword argument, a nil exit status. */
  datatype Option<+T> = None | Some(value: T)

  /** The outcome of an operation that can raise: `Err` stands for the raised exception. */
  datatype Result<+T, +E> = Ok(value: T) | Err(error: E)
}
