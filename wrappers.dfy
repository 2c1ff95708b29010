/** Option and Result values shared by every module of the model. */
module Wrappers {

  /** A value that may be missing (JavaScript's `null`/`undefined`). */
  datatype Option<T> = None | Some(value: T)

  /** The `{ error: message }` / success shape the room store returns. */
  datatype Result<T> = Ok(value: T) | Err(message: string)
}
