/** Optional values and success-or-error results, shared by every module of the model.
    A Python exception raised by the source becomes a `Failure` carrying a value that
    names it. */
module Results {

  datatype Option<+T> = None | Some(value: T)

  datatype Result<+T, +E> = Success(value: T) | Failure(error: E)
}
