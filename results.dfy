/** Failure-carrying wrappers shared by the modules of the command-line model. */
module Results {

  /** A value that may be absent: a collaborator that can fail without an error value. */
  datatype Option<+T> = None | Some(value: T)

  /** Go's `(value, error)` pair: exactly one of the two is meaningful. */
  datatype Result<+T, +E> = Ok(value: T) | Err(error: E)
}
