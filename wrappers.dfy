/** Option and Result values shared by every module of the model. */
module Wrappers {

  /** `None` stands for JavaScript's `undefined`/`null` (or NaN where a number is expected). */
  datatype Option<+T> = None | Some(value: T)

  /** `Err` stands for a JavaScript exception, with a short description of it. */
  datatype Result<+T> = Ok(value: T) | Err(error: string)
}
