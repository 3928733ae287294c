/** Failure-carrying datatypes shared by the other modules. */
module Wrappers {

  datatype Option<+T> = None | Some(value: T)

  /** The value of a step that either produced `value` or stopped with `error`. */
  datatype Result<+T, +E> = Ok(value: T) | Err(error: E)
}
