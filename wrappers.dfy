/** Optional values, and the outcome of an operation that may raise one of
    the Python exceptions the report code can raise. */
module Wrappers {

  datatype Option<+T> = None | Some(value: T)

  /** The exceptions the modelled code raises: a subscript on a missing key,
      and `[0]` on an empty list. */
  datatype Error = KeyError(key: string) | IndexError

  datatype Result<+T> = Ok(value: T) | Err(error: Error)
}
