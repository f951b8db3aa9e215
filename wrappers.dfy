/** Optional values and results shared by every module of the model. */
module Wrappers {

  datatype Option<T> = None | Some(value: T)

  /** The outcome of a call that either returns a value or raises. */
  datatype Result<T, E> = Ok(value: T) | Err(error: E)
}
