/** Optional values and results that stand for the program's `undefined` and its exceptions. */
module Options {
  datatype Option<+T> = None | Some(value: T)
  datatype Result<+T, +E> = Success(value: T) | Failure(error: E)
}
