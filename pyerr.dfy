// Python exceptions as values: an operation either completes or raises an
// exception of a given class with a given message.

module PyErr {

  /** A raised exception: its class name and its message. */
  datatype Exc = Exc(kind: string, message: string)

  datatype Result<T> = Ok(value: T) | Err(exc: Exc)

  /** The outcome of an operation that returns nothing. */
  datatype Outcome = Done | Raised(exc: Exc)
}
