/** Option and Result, shared by the modules of this project. */
module Wrappers {

  /** A value that may be absent; `None` stands for Java's `null`. */
  datatype Option<+T> = None | Some(value: T)

  /** The value of an operation that may raise an exception instead. */
  datatype Result<+T, +E> = Ok(value: T) | Err(error: E)
}
