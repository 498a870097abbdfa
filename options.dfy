/** Optional values (pandas NaN, a failed lookup) and results (an exception the caller handles). */
module Options {

  datatype Option<T> = None | Some(value: T)

  datatype Result<T, E> = Success(value: T) | Failure(error: E)
}
