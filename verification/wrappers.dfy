/** Optional values and success-or-error outcomes, used wherever the app
    has a missing value (`undefined`, `null`) or an operation that can fail. */
module Wrappers {

  datatype Option<+T> = None | Some(value: T)

  /** The outcome of a call to the hosted data store or the auth service:
      either the returned value or the error message it reported. */
  datatype Result<+T> = Success(value: T) | Failure(error: string)

  function Min(a: int, b: int): int { if a <= b then a else b }
}
