/** Option, used wherever the source reads a value that may be absent (a dict key
    that is missing, a file that does not exist, a call that returned None). */
module Wrappers {

  datatype Option<+T> = None | Some(value: T) {

    /** The value, or `default` when absent (Python's `dict.get(key, default)`). */
    function GetOr(default: T): T {
      match this
      case Some(v) => v
      case None => default
    }
  }
}
