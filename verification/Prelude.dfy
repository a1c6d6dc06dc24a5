/** Datatypes shared by every module of the model. */
module Prelude {

  datatype Option<+T> = None | Some(value: T)

  /** The source's `(value, error)` returns, with the error reduced to the branch that raised it. */
  datatype Result<+T, +E> = Ok(value: T) | Err(error: E)
}
