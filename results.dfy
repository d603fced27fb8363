/** Go returns `(value, error)` pairs; the model returns one of these instead. */
module Results {

  /** Either the value a call produced or the error it returned. */
  datatype Result<+T, +E> = Success(value: T) | Failure(error: E)

  /** A value that may be absent. */
  datatype Option<+T> = None | Some(value: T)
}
