/** Option and Result values shared by the modules of the model. */
module Outcomes {

  /** A value that may be absent: `null`/`None`/`undefined` in the modelled code. */
  datatype Option<+T> = None | Some(value: T) {
    /** The value, or `default` when absent. */
    function GetOr(default: T): T {
      match this
      case Some(v) => v
      case None => default
    }
  }

  /** The outcome of an operation that either returns a value or raises. */
  datatype Result<+T, +E> = Ok(value: T) | Err(error: E)
}
