/** Small value types shared by the other modules. */
module Base {

  /** A value that may be missing: a nil reference, a failed lookup. */
  datatype Option<+T> = None | Some(value: T)

  /** The outcome of an operation that can fail with an error value. */
  datatype Result<+T, +E> = Ok(value: T) | Err(error: E)
}
