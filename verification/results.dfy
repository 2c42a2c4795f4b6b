/** The outcome of an operation that either produces a value or fails with
    an error value (the model's stand-in for a raised Python exception). */
module Results {

  datatype Result<+T, +E> = Ok(value: T) | Err(error: E)
}
