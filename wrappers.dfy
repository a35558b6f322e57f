/** Option type shared by the modules of this model. */
module Wrappers {

  /** A value that may be absent: Python's `Optional`, with None for `None`. */
  datatype Option<+T> = None | Some(value: T) {

    /** The value, or `default` when absent (`x if x is not None else default`). */
    function GetOr(default: T): T {
      match this
      case Some(v) => v
      case None => default
    }
  }
}
