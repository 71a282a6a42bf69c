/** Option and Result values standing for Go's nil-able values and `(T, error)` returns.
    A Go `error` is modelled by its message, the text `err.Error()` returns. */
module Wrappers {

  datatype Option<+T> = None | Some(value: T)

  datatype Result<+T> = Ok(value: T) | Err(error: string)
}
