/** Option and Result values used by the resource-profile model. */
module Wrappers {
  datatype Option<T> = None | Some(value: T)

  /** The outcome of an operation that may raise: a value, or the error it raises. */
  datatype Result<T, E> = Ok(value: T) | Err(error: E)
}
