/** Option and Result values, and the two Python exceptions the modelled code can raise. */
module Wrappers {

  datatype Option<+T> = None | Some(value: T)

  /** The Python exceptions that escape the modelled functions. */
  datatype Error =
    | KeyError(key: string)       // a dict subscript or a str.format field with no value
    | ValueError(message: string) // an explicit `raise ValueError(...)`

  /** The outcome of a Python call that either returns a value or raises. */
  datatype Result<+T> = Ok(value: T) | Err(error: Error)
}
