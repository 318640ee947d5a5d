/** Optional values and fallible results, used where the plugin works with
    nullable pointers or may fail. */
module Wrappers {

  /** A value that may be absent, in place of a null pointer or an unset field. */
  datatype Option<+T> = None | Some(value: T)

  /** The outcome of an operation that can fail. */
  datatype Result<+R, +E> = Success(value: R) | Failure(error: E)
}
