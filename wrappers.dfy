/** Optional values and error results shared by every module of the model. */
module Wrappers {

  /** A value that may be missing: JavaScript's `undefined`/`null`, Python's `None`. */
  datatype Option<+T> = None | Some(value: T) {

    /** The value, or `default` when missing (the `??` operator of TypeScript). */
    function GetOr(default: T): T {
      match this
      case Some(v) => v
      case None => default
    }
  }

  /** The outcome of an operation that can fail, in place of a raised exception. */
  datatype Result<+T, +E> = Ok(value: T) | Err(error: E)
}
