/** Plain value wrappers: the code's panics and `Option`s become values the model returns. */
module Wrappers {

  datatype Option<+T> = None | Some(value: T)

  datatype Result<+T, +E> = Ok(value: T) | Err(error: E)

  /** The result of an operation that yields no value: it passes or fails with an error. */
  datatype Outcome<+E> = Pass | Fail(error: E)
}
