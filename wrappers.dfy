/** Optional values and results with an error case, shared by every module. */
module Wrappers {

  /** A value that may be absent: JavaScript's `null` or Python's `None`. */
  datatype Option<T> = None | Some(value: T)

  /** The outcome of an operation that can fail with an error of type `E`. */
  datatype Result<T, E> = Ok(value: T) | Err(error: E)
}
