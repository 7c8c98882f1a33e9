/** Optional values and results shared by every module of the model. */
module Common {
  datatype Option<T> = None | Some(value: T)

  /** The outcome of an operation that may raise: `Failure` stands for an uncaught Python exception. */
  datatype Result<T> = Success(value: T) | Failure(error: string)
}
