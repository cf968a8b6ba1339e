/** Optional values and results with an error, used across the model. */
module Options {

  /** A value that may be absent (an `undefined` property in the source). */
  datatype Option<+T> = None | Some(value: T)

  /** Either a value or an error. */
  datatype Result<+T, +E> = Success(value: T) | Failure(error: E)
}
