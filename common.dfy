/** Python's `None`-or-value and raise-or-return outcomes, as values. */
module Common {

  /** A value that may be Python's `None`. */
  datatype Option<+T> = None | Some(value: T)

  /** The outcome of a call that either returns or raises. */
  datatype Result<+T, +E> = Ok(value: T) | Err(error: E)
}
