/** Optional values (Kotlin's nullable types) and the success/failure result of
    the kotlin-result library that every factory and operation of the domain returns. */
module Wrappers {

  /** A Kotlin `T?`: `None` stands for `null`. */
  datatype Option<+T> = None | Some(value: T)

  /** kotlin-result's `Result<V, E>`: `Ok(value)` or `Err(error)`. */
  datatype Result<+T, +E> = Ok(value: T) | Err(error: E)
}
