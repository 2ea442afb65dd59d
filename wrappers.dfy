/** Failure-compatible wrappers shared by the modules of this model. */
module Wrappers {

  /** An optional value: `None` stands for Rust's `None` (or, where noted, a sentinel). */
  datatype Option<+T> = None | Some(value: T)

  /** The value of a fallible operation: `Ok` or an error message, as Rust's `Result<T, String>`. */
  datatype Result<+T> = Ok(value: T) | Err(message: string)
}
