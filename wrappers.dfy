/** Option and Result, the two wrappers every modelled operation returns. */
module Wrappers {
  datatype Option<T> = None | Some(value: T)

  /** A fallible result; errors carry the source's message without its interpolated values. */
  datatype Result<T> = Ok(value: T) | Err(error: string)
}
