/** Success and failure values shared by the builder model. */
module Results {

  /** A value that may be missing. */
  datatype Option<+T> = None | Some(value: T)

  /** An operation that either completes with a value or stops with an error. */
  datatype Result<+T, +E> = Ok(value: T) | Err(error: E)
}
