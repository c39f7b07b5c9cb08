/** Failure-carrying values shared by the whole model: an optional value and
    a value-or-error result, in place of Go's (value, error) return pairs. */
module Results {

  /** A value that may be absent. */
  datatype Option<+T> = None | Some(value: T)

  /** Either the value an operation produced or the error it reported. */
  datatype Result<+T, +E> = Ok(value: T) | Err(error: E)
}
