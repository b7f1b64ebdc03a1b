/** Optional values and success/failure results shared by the model. */
module Results {

  /** A value that may be absent (a missing or `undefined` JavaScript field). */
  datatype Option<+T> = None | Some(value: T)

  /** The outcome of an operation that either returns a value or throws an error. */
  datatype Result<+T, +E> = Success(value: T) | Failure(error: E)
}
