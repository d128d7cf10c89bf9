/** Option and Result, used for the store's optional reads and for the
    exception a failed insert raises. */
module Wrappers {

  /** A value that may be absent (Python's `Optional[T]`, with `None`). */
  datatype Option<+T> = None | Some(value: T)

  /** A value, or the error that was raised instead of producing it. */
  datatype Result<+T, +E> = Ok(value: T) | Err(error: E)
}
