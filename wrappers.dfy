/** Optional values and success-or-error results, standing in for TypeScript's `T | undefined`
    and for promises that resolve or reject. */
module Wrappers {

  datatype Option<+T> = None | Some(value: T)

  datatype Result<+R, +E> = Success(value: R) | Failure(error: E)
}
