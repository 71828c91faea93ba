/** Optional values, fallible results and outcomes of operations that can throw. */
module Results {

  /** Swift's `Optional`: `nil` or a wrapped value. */
  datatype Option<+T> = None | Some(value: T)

  /** The value a throwing call returns, or the error it throws. */
  datatype Result<+T, +E> = Success(value: T) | Failure(error: E)

  /** A throwing call that returns nothing: it either completes or throws `error`. */
  datatype Outcome<+E> = Pass | Fail(error: E)
}
