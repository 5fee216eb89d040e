/** Python's `None` next to a present value. */
module Optional {

  datatype Option<+T> = None | Some(value: T)

  /** Outcome of a call that may raise: the value, or the exception's text. */
  datatype Result<+T> = Ok(value: T) | Err(error: string)
}
