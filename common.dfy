/** Small value wrappers shared by every module: a JavaScript value that may be
    `undefined`, and the outcome of an operation that may throw. */
module Common {

  /** A value that may be absent (`undefined` in the storefront code). */
  datatype Option<+T> = None | Some(value: T)

  /** The outcome of a step that either produces a value or throws an error. */
  datatype Result<+T, +E> = Ok(value: T) | Err(error: E)
}
