/** Optional values and results with an error, as used throughout the model. */
module Wrappers {

  /** Python's `Optional[...]`: `None` or a value. */
  datatype Option<+T> = None | Some(value: T)

  /** The outcome of a computation that can raise: a value, or the error it raised. */
  datatype Result<+T, +E> = Ok(value: T) | Err(error: E)
}
