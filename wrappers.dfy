/** Optional values and success-or-error results, used for the nullable
    fields and the thrown exceptions of the modelled code. */
module Wrappers {

  /** `null` / `undefined` versus a present value. */
  datatype Option<+T> = None | Some(value: T)

  /** A value, or the error the source would throw instead. */
  datatype Result<+R, +E> = Success(value: R) | Failure(error: E)
}
