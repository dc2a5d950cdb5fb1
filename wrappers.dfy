/** Option and Result, the two failure-carrying values used throughout the model. */
module Wrappers {

  /** A value that may be absent: `None` stands for JavaScript's `undefined` or `null`. */
  datatype Option<T> = None | Some(value: T)

  /** The outcome of a store operation: the stored row, or the error the store raised. */
  datatype Result<T, E> = Ok(value: T) | Err(error: E)
}
