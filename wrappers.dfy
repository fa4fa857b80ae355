/** Optional values and success-or-error results, used for the places where
    the modelled code returns nothing, raises, or rejects its input. */
module Wrappers {

  datatype Option<+T> = None | Some(value: T)

  datatype Result<+R, +E> = Success(value: R) | Failure(error: E)
}
