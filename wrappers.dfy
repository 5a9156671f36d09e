/** The Option datatype used for values that the simulation engine may fail to produce. */
module Wrappers {

  /** `None` stands for Python's `None`; `Some(v)` for a real value. */
  datatype Option<+T> = None | Some(value: T) {

    /** The wrapped value, or `default` when there is none. */
    function GetOr(default: T): (r: T)
      ensures Some? ==> r == value
      ensures None? ==> r == default
    {
      match this
      case Some(v) => v
      case None => default
    }
  }
}
