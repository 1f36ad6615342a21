/** Small shared datatypes. */
module Common {

  /** Python's `Optional[T]`: a value or `None`. */
  datatype Option<+T> = None | Some(value: T) {
    function GetOr(default: T): T {
      match this
      case Some(v) => v
      case None => default
    }
  }

  /** Python's `max(x, 0)` on unbounded integers. */
  function ClampAtZero(x: int): (r: nat)
    ensures r >= x && (r == 0 || r == x)
  {
    if x < 0 then 0 else x
  }
}
