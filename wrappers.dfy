/** Optional values and results with an error message, used for Swift optionals,
    `fatalError` paths and failed lookups. */
module Wrappers {
  datatype Option<T> = None | Some(value: T)

  datatype Result<T> = Success(value: T) | Failure(error: string)
}
