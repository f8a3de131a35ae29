/** The optional-value wrapper used for readings and labels that may be absent. */
module Wrappers {

  /** An absent (`None`) or present (`Some`) value. */
  datatype Option<+T> = None | Some(value: T) {

    /** The wrapped value, or `default` when absent. */
    function GetOr(default: T): T {
      match this
      case Some(v) => v
      case None => default
    }
  }
}
