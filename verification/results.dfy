/** Option and Result, the value-or-failure types used across the model. */
module Results {

  datatype Option<+T> = None | Some(value: T)

  /** The outcome of a Python call that either returns a value or raises.
      A failure carries `str(e)` of the exception that was raised. */
  datatype Result<+T> = Success(value: T) | Failure(message: string)
}
