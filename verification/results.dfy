/** Optional values and failure-carrying results used across the model. */
module Results {

  datatype Option<+T> = None | Some(value: T)

  /** The outcome of a step that can fail: a Python exception becomes a Failure. */
  datatype Result<+T, +E> = Success(value: T) | Failure(error: E)
}
