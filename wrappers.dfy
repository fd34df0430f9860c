/** Small failure-compatible wrapper used across the model. */
module Wrappers {

  /** `Some(v)` for a present value, `None` for Go's nil or a failed type assertion. */
  datatype Option<+T> = None | Some(value: T) {

    /** The wrapped value, or `default` when absent. */
    function GetOr(default: T): T {
      match this
      case Some(v) => v
      case None => default
    }
  }
}
