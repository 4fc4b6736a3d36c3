/** Option and Result, the two wrappers every other module uses for `undefined`/`null`
    values and for thrown exceptions. */
module Common {

  /** A value that may be missing: JavaScript's `undefined` or `null`. */
  datatype Option<+T> = None | Some(value: T)

  /** The outcome of a call that either returns a value or throws. */
  datatype Result<+T, +E> = Success(value: T) | Failure(error: E)
}
