/** The optional-value wrapper used for the optional `description` field. */
module Wrappers {

  /** An absent or present value; JavaScript's `undefined` is `None`. */
  datatype Option<+T> = None | Some(value: T) {

    /** The wrapped value, or `default` when absent. */
    function GetOr(default: T): T {
      match this
      case Some(v) => v
      case None => default
    }
  }
}
