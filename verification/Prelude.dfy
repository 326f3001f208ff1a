/** Result types shared by every module of the model. */
module Prelude {
  datatype Option<+T> = None | Some(value: T)

  /** What an operation hands back: a value, or the error it raised. */
  datatype Answer<+T, +E> = Ok(value: T) | Err(error: E)
}
