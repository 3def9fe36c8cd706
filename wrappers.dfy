/** Option and Result, the two failure-carrying shapes the model uses. */
module Wrappers {

  /** A value that may be missing: an unset $_POST key, PHP's false from a probe. */
  datatype Option<+T> = None | Some(value: T)

  /** A stage that either yields a value or stops the request with an error. */
  datatype Result<+T, +E> = Ok(value: T) | Err(error: E)
}
