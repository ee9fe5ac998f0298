/** Small value types and integer helpers shared by the whole model. */
module Base {

  /** A value that may be absent: JavaScript's `null`/`undefined`, PHP's `null`. */
  datatype Option<+T> = None | Some(value: T) {
    function GetOr(default: T): (r: T)
      ensures Some? ==> r == value
      ensures None? ==> r == default
    {
      match this
      case Some(v) => v
      case None => default
    }
  }

  /** The outcome of an operation that can throw. */
  datatype Result<+T, +E> = Ok(value: T) | Err(error: E)

  function Min(a: int, b: int): (r: int)
    ensures r <= a && r <= b
    ensures r == a || r == b
  {
    if a <= b then a else b
  }

  /** `Math.ceil(n / d)` for a positive divisor, in integers. */
  function CeilDiv(n: nat, d: nat): (r: nat)
    requires d > 0
    ensures (r - 1) * d < n <= r * d || (n == 0 && r == 0)
  {
    (n + d - 1) / d
  }

  lemma MulMonotone(a: int, b: int, k: nat)
    requires a <= b
    ensures a * k <= b * k
  {
    assert b * k == a * k + (b - a) * k;
  }
}
