/** The optional value used for a cell of a numeric column: None stands for NaN. */
module Wrappers {

  datatype Option<+T> = None | Some(value: T) {

    /** Returns the value, or the given default when there is none (pandas `fillna`). */
    function GetOr(default: T): T {
      match this
      case Some(v) => v
      case None => default
    }
  }
}
