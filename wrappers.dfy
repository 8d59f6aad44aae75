/** Option and Result values shared by every module of the model.
    Go's `(value, error)` pairs become `Result<T>`, with the error's text
    (what `err.Error()` would print) as the failure value. */
module Wrappers {

  datatype Option<+T> = None | Some(value: T)

  datatype Result<+T> = Ok(value: T) | Err(error: string)
}
