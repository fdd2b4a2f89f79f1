/** PHP's NULL next to a present value. */
module Wrappers {

  /** `None` stands for PHP's NULL, `Some(v)` for a value that is set. */
  datatype Option<+T> = None | Some(value: T) {

    /** The value, or `default` when this is None. */
    function GetOr(default: T): (r: T)
      ensures Some? ==> r == value
      ensures None? ==> r == default
    {
      match this
      case Some(v) => v
      case None => default
    }
  }
}
