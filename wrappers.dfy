/** Optional values: the model's stand-in for Python's `None`. */
module Wrappers {

  datatype Option<+T> = None | Some(value: T) {

    /** The value if present, otherwise `default`. */
    function GetOr(default: T): T {
      match this
      case Some(v) => v
      case None => default
    }
  }

  /** Python's `a or b` on optional numbers: `a` when it is present and non-zero, else `b`. */
  function OrElse(a: Option<real>, b: Option<real>): (r: Option<real>)
    ensures a.Some? && a.value != 0.0 ==> r == a
    ensures !(a.Some? && a.value != 0.0) ==> r == b
  {
    if a.Some? && a.value != 0.0 then a else b
  }
}
