/** Failure-compatible wrappers shared by every module of the model. */
module Results {

  datatype Option<+T> = None | Some(value: T)

  /** The success-or-error value that a Go `(T, error)` pair becomes. */
  datatype Result<+T, +E> = Ok(value: T) | Err(error: E)
}
