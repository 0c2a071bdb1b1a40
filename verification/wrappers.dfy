/** Failure-carrying datatypes shared by the whole model: `Option` stands for
    Python's `None`-or-value returns, `Result` for a value-or-raised-error. */
module Wrappers {

  datatype Option<+T> = None | Some(value: T) {

    /** The value, or `default` when there is none. */
    function GetOr(default: T): T {
      match this
      case Some(v) => v
      case None => default
    }
  }

  datatype Result<+R, +E> = Ok(value: R) | Err(error: E)
}
