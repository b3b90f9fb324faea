/** Optional values and results with an error message, as the emulator's
    `null` returns and thrown exceptions are modelled throughout. */
module Wrappers {
  datatype Option<T> = None | Some(value: T)

  datatype Result<T, E> = Ok(value: T) | Err(error: E)
}
