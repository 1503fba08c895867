/** Optional values and outcomes of operations that can fail. */
module Results {

  datatype Option<+T> = None | Some(value: T)

  /** The success or the failure of an operation that returns nothing. */
  datatype Outcome<+E> = Pass | Fail(error: E)

  datatype Result<+T, +E> = Success(value: T) | Failure(error: E)
}
