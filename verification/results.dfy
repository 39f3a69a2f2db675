/** Option and Result values, and the JavaScript `Error` object that the
    backend throws and catches. */
module Results {

  datatype Option<+T> = None | Some(value: T)

  /** The outcome of an operation that may throw: `Err` carries what was thrown. */
  datatype Result<+T, +E> = Ok(value: T) | Err(error: E)

  /** A thrown `Error`; only its `message` is ever inspected. */
  datatype Error = Error(message: string)
}
