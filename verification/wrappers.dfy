/** Failure-carrying datatypes shared by the whole model. */
module Wrappers {

  /** A value that may be absent: a missing dictionary key, a failed parse. */
  datatype Option<+T> = None | Some(value: T) {

    /** The value, or `default` when absent (Python's `d.get(k, default)`). */
    function GetOr(default: T): T {
      match this
      case Some(v) => v
      case None => default
    }
  }

  /** The outcome of evaluating a Python expression or call: a value, or an
      exception that propagates to the nearest enclosing `try`. The kind and
      message of the exception are not modelled. */
  datatype PyResult<+T> = Ok(value: T) | Raise
}
