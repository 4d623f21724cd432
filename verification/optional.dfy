/** Option and Result values, used for PHP's nullable values and for the
    exceptions a step of a request handler may throw. */
module Optional {

  /** A value that may be absent; `None` stands for PHP's `null`. */
  datatype Option<+T> = None | Some(value: T)

  /** The outcome of a step that either yields a value or throws `E`. */
  datatype Result<+T, +E> = Ok(value: T) | Err(error: E)
}
