/** Option and Result, used for JavaScript's `undefined` and for thrown errors. */
module Wrappers {

  /** `None` stands for a value that is absent (`undefined`, `null` content). */
  datatype Option<+T> = None | Some(value: T)

  /** `Err` stands for an exception thrown and not yet caught. */
  datatype Result<+T, +E> = Ok(value: T) | Err(error: E)
}
