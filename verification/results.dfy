/** Failure-carrying values shared by every module of the model. */
module Results {

  /** A value that may be absent: Go's nil pointer, a missing map key, a nil error. */
  datatype Option<+T> = None | Some(value: T)

  /** A successful value or an error, in place of Go's `(value, error)` pairs. */
  datatype Result<+T, +E> = Ok(value: T) | Err(error: E)
}
