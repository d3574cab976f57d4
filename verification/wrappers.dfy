/** Small failure-carrying datatypes shared by the other modules. */
module Wrappers {

  /** An optional value: a missing request field, a key that is not found. */
  datatype Option<+T> = None | Some(value: T)

  /** A computation that either produced a value or failed with an error. */
  datatype Result<+T, +E> = Ok(value: T) | Err(error: E)
}
