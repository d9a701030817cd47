/** Optional values and results with an error, used for the features a layer
    may lack and for the exception that aborts an export. */
module Wrappers {

  /** Some value, or None where the script produces `null` or `undefined`. */
  datatype Option<+T> = None | Some(value: T)

  /** Ok with a value, or Err where the script throws. */
  datatype Result<+T, +E> = Ok(value: T) | Err(error: E)
}
