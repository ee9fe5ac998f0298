/**
 * `Math.round((part / whole) * 100)` as the results screens display it,
 * computed on integers: rounding half up, and JavaScript's `NaN` and
 * `Infinity` when there is nothing to divide by.
 */
module Percent {
  import opened Base
  import opened Text

  datatype Percent = Finite(n: int) | Infinite | NotANumber

  /** The nearest whole percentage, halves rounded up, of `part` out of `whole`. */
  function RoundedPercent(part: nat, whole: nat): (r: Percent)
    ensures r.Finite? <==> whole > 0
    ensures r == NotANumber <==> whole == 0 && part == 0
    ensures r.Finite? ==> 2 * whole * r.n <= 200 * part + whole < 2 * whole * (r.n + 1)
  {
    if whole == 0 then (if part == 0 then NotANumber else Infinite)
    else
      var n := (200 * part + whole) / (2 * whole);
      DivBounds(200 * part + whole, 2 * whole);
      Finite(n)
  }

  lemma DivBounds(a: nat, b: nat)
    requires b > 0
    ensures b * (a / b) <= a < b * (a / b + 1)
  {
    assert a == b * (a / b) + a % b;
  }

  /** `100 * part / whole` lies within half a unit of the rounded value, and only one integer does. */
  lemma RoundingUnique(part: nat, whole: nat, k: int)
    requires whole > 0
    requires 2 * whole * k <= 200 * part + whole < 2 * whole * (k + 1)
    ensures RoundedPercent(part, whole) == Finite(k)
  {
    var n := RoundedPercent(part, whole).n;
    if k < n {
      MulMonotone(k + 1, n, 2 * whole);
    } else if k > n {
      MulMonotone(n + 1, k, 2 * whole);
    }
  }

  /** A part of a whole is between 0% and 100%, all of it is 100% and none of it 0%. */
  lemma PercentBounds(part: nat, whole: nat)
    requires 0 < whole && part <= whole
    ensures 0 <= RoundedPercent(part, whole).n <= 100
    ensures RoundedPercent(whole, whole) == Finite(100)
    ensures RoundedPercent(0, whole) == Finite(0)
  {
    var n := RoundedPercent(part, whole).n;
    if n < 0 {
      MulMonotone(n + 1, 0, 2 * whole);
    }
    if n > 100 {
      MulMonotone(101, n, 2 * whole);
    }
    RoundingUnique(whole, whole, 100);
    RoundingUnique(0, whole, 0);
  }

  /** More correct answers never show a smaller percentage. */
  lemma PercentMonotone(a: nat, b: nat, whole: nat)
    requires 0 < whole && a <= b
    ensures RoundedPercent(a, whole).n <= RoundedPercent(b, whole).n
  {
    var na, nb := RoundedPercent(a, whole).n, RoundedPercent(b, whole).n;
    if na > nb {
      MulMonotone(nb + 1, na, 2 * whole);
    }
  }

  /** What `{percent}%` shows. */
  function PercentText(p: Percent): string
  {
    match p
    case Finite(n) => IntToString(n) + "%"
    case Infinite => "Infinity%"
    case NotANumber => "NaN%"
  }
}
