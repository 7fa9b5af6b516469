/** Optional values and failures, shared by every module of the model. */
module Wrappers {

  /** An absent or present value: a JavaScript `undefined`/`null`, a missing
      dictionary key in Python, or a nullable database column. */
  datatype Option<+T> = None | Some(value: T) {
    function GetOr(default: T): T {
      match this
      case Some(v) => v
      case None => default
    }
  }

  /** The outcome of a call that may throw: `Err` carries the error message. */
  datatype Result<+T, +E> = Ok(value: T) | Err(error: E)
}
