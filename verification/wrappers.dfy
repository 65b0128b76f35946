/** Optional values and results, the model's stand-ins for `undefined`/`null` and for thrown errors. */
module Wrappers {

  datatype Option<+T> = None | Some(value: T)

  /** `Failure` carries the message of the error the source would throw. */
  datatype Result<+T, +E> = Success(value: T) | Failure(error: E)
}
