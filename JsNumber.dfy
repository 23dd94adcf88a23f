/** JavaScript numbers and the `Math` operations the scheduler applies to them.
    A finite double is taken as the exact real it denotes; the non-finite values
    are tagged. Signed zero is not distinguished. */
module JsNumber {

  datatype Num = Real(val: real) | NaN | PosInf | NegInf

  /** `Number.isFinite`. */
  predicate IsFinite(x: Num): (r: bool)
    ensures r <==> !x.NaN? && !x.PosInf? && !x.NegInf?
  {
    x.Real?
  }

  /** A finite whole number, or a non-finite value (which `Math.round` leaves as it is). */
  predicate IsIntegral(x: Num) {
    x.Real? ==> x.val == x.val.Floor as real
  }

  /** JavaScript's `a <= b` on numbers: false whenever either side is NaN. */
  predicate Le(a: Num, b: Num): (r: bool)
    ensures a.NaN? || b.NaN? ==> !r
    ensures a.NegInf? && !b.NaN? ==> r
    ensures b.PosInf? && !a.NaN? ==> r
    ensures a.PosInf? && !b.PosInf? ==> !r
    ensures b.NegInf? && !a.NegInf? ==> !r
    ensures a.Real? && b.Real? ==> (r <==> a.val <= b.val)
  {
    match (a, b)
    case (NaN, _) => false
    case (_, NaN) => false
    case (NegInf, _) => true
    case (_, PosInf) => true
    case (Real(x), Real(y)) => x <= y
    case _ => false
  }

  /** `Math.round` on a finite value (ECMA-262, section 21.3.2.28): the nearest
      integer, with halves going toward +infinity. */
  function RoundReal(v: real): (k: int)
    ensures v - 1.0 / 2.0 < k as real <= v + 1.0 / 2.0
  {
    (v + 1.0 / 2.0).Floor
  }

  /** `Math.round`: finite values go to the nearest integer; NaN and the infinities are returned unchanged. */
  function Round(x: Num): (r: Num)
    ensures r.Real? <==> x.Real?
    ensures IsIntegral(r)
    ensures x.Real? ==> x.val - 1.0 / 2.0 < r.val <= x.val + 1.0 / 2.0
    ensures !x.Real? ==> r == x
  {
    match x
    case Real(v) => Real(RoundReal(v) as real)
    case _ => x
  }

  /** `Math.max(a, b)`: NaN if either argument is NaN, otherwise the larger argument. */
  function Max(a: Num, b: Num): (r: Num)
    ensures r.NaN? <==> a.NaN? || b.NaN?
    ensures !r.NaN? ==> (r == a || r == b) && Le(a, r) && Le(b, r)
  {
    if a.NaN? || b.NaN? then NaN
    else if Le(a, b) then b
    else a
  }

  /** `Math.min(a, b)`: NaN if either argument is NaN, otherwise the smaller argument. */
  function Min(a: Num, b: Num): (r: Num)
    ensures r.NaN? <==> a.NaN? || b.NaN?
    ensures !r.NaN? ==> (r == a || r == b) && Le(r, a) && Le(r, b)
  {
    if a.NaN? || b.NaN? then NaN
    else if Le(a, b) then a
    else b
  }
}
