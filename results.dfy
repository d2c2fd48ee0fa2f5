/** Failure-carrying values shared by the registries and the log service. */
module Results {

  /** A value that may be absent; Java's `null` becomes `None`. */
  datatype Option<+T> = None | Some(value: T)

  /** The exception a lookup throws: an `IllegalArgumentException` and its message. */
  datatype Error = IllegalArgument(message: string)

  /** The outcome of an operation that either returns a value or throws. */
  datatype Result<+T> = Ok(value: T) | Err(error: Error)
}
