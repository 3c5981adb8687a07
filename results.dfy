/** Failure-carrying values: Python's `None` and raised exceptions, made explicit. */
module Results {

  datatype Option<+T> = None | Some(value: T)

  /** `Err` stands for an exception raised by the modelled code. */
  datatype Result<+T, +E> = Ok(value: T) | Err(error: E)
}
