/** The two failure-carrying datatypes the rest of the model uses in place of
    Python's `None` results and raised exceptions. */
module Wrappers {

  /** `Optional[T]`: either nothing or one value. */
  datatype Option<+T> = None | Some(value: T)

  /** A computation that either produced a value or failed with an error. */
  datatype Result<+T, +E> = Ok(value: T) | Err(error: E)
}
