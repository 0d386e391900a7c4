/** Optional values and the success-or-failure result shared by the other modules. */
module Wrappers {

  /** A value that may be missing, like an optional in the modelled program. */
  datatype Option<+T> = None | Some(value: T)

  /** Either a value or the error that was raised instead of producing it. */
  datatype Result<+T, +E> = Success(value: T) | Failure(error: E)
}
