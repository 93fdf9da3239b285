/** Optional values and outcomes shared by every module of the model. */
module Common {

  /** A value that may be absent: Python's `None`, a missing dictionary key or a NaN. */
  datatype Option<+T> = None | Some(value: T) {
    /** `value` when present, `default` otherwise (Python's `d.get(k, default)`). */
    function GetOr(default: T): T {
      match this
      case Some(v) => v
      case None => default
    }
  }

  /** The outcome of an operation that can raise: `Ok` or the raised message. */
  datatype Result<+R, +E> = Ok(value: R) | Err(error: E)

  /** Python truthiness of an optional integer: present and non-zero. */
  predicate Truthy(x: Option<int>)
  {
    x.Some? && x.value != 0
  }

  /** Python's `x or default` for an optional integer. */
  function OrElse(x: Option<int>, default: int): (r: int)
    ensures Truthy(x) ==> r == x.value
    ensures !Truthy(x) ==> r == default
  {
    if Truthy(x) then x.value else default
  }
}
