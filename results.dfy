/** Optional values and success/failure results shared by the other modules. */
module Results {

  /** A value that may be missing; `None` stands for Python's `None` (and pandas' NaN). */
  datatype Option<T> = None | Some(value: T)

  /** The outcome of a computation that can abort with an error. */
  datatype Result<T, E> = Success(value: T) | Failure(error: E)
}
