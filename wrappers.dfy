/** Option and Result: the absent values and the raised exceptions of the source, as values. */
module Wrappers {

  datatype Option<T> = None | Some(value: T)

  /** `Err` stands for an exception that escapes the operation. */
  datatype Result<T, E> = Ok(value: T) | Err(error: E)
}
