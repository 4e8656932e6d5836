/** Option stands for a value that may be missing: a pandas NaN, a Python None,
    an unset ORM attribute or a foreign call that raised. */
module Wrappers {

  datatype Option<+T> = None | Some(value: T) {

    /** The value, or `default` when there is none. */
    function GetOr(default: T): T {
      match this
      case Some(v) => v
      case None => default
    }
  }
}
