/** Wrappers shared by every module of the model.
    `Option` stands for a JavaScript value that may be `null`/`undefined`;
    `Result` stands for a promise that either resolves or rejects with an
    error message. */
module Wrappers {

  datatype Option<+T> = None | Some(value: T)

  datatype Result<+T> = Ok(value: T) | Err(message: string)
}
