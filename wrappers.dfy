/** Optional values and outcomes that may fail with an exception. */
module Wrappers {

  /** A Java reference that may be null. */
  datatype Option<T> = None | Some(value: T)

  /** A call that either returns a value or throws; the message names the exception. */
  datatype Result<T> = Ok(value: T) | Err(error: string)
}
