/** Optional values and results, shared by every module of the model. */
module Wrappers {

  /** A value that may be absent: a missing JSON key, `undefined`, Python `None`, a Go nil. */
  datatype Option<+T> = None | Some(value: T) {

    /** The value, or `default` when absent (the `??` operator of TypeScript). */
    function GetOr(default: T): T {
      match this
      case Some(v) => v
      case None => default
    }
  }

  /** The outcome of an operation that can fail with an error of type E. */
  datatype Result<+R, +E> = Ok(value: R) | Err(error: E)
}
