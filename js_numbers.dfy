/**
 * JavaScript numbers as the validators see them: NaN, a finite value or one of
 * the two infinities, with `Math.floor`, `Math.max`, truthiness (`||`) and the
 * comparison operators. Finite values are exact reals: rounding and the sign
 * of zero are not modelled.
 */
module JsNumbers {

  datatype JsNumber = NaN | Finite(value: real) | PosInfinity | NegInfinity

  function FromInt(i: int): JsNumber {
    Finite(i as real)
  }

  /** An integer value (or +Infinity, which `Math.floor` keeps as it is). */
  predicate IsWhole(n: JsNumber) {
    n.PosInfinity? || (n.Finite? && n.value == n.value.Floor as real)
  }

  /** `a < b`; false as soon as one side is NaN. */
  predicate Less(a: JsNumber, b: JsNumber) {
    match (a, b)
    case (Finite(u), Finite(v)) => u < v
    case (NegInfinity, Finite(_)) => true
    case (NegInfinity, PosInfinity) => true
    case (Finite(_), PosInfinity) => true
    case _ => false
  }

  /** `a >= b`; false as soon as one side is NaN. */
  predicate AtLeast(a: JsNumber, b: JsNumber) {
    !a.NaN? && !b.NaN? && !Less(a, b)
  }

  /** `Math.floor(n)`. */
  function Floor(n: JsNumber): (r: JsNumber)
    ensures r.NaN? <==> n.NaN?
    ensures n.Finite? ==> r.Finite? && IsWhole(r) && r.value <= n.value < r.value + 1.0
    ensures !n.Finite? ==> r == n
  {
    match n
    case Finite(v) => Finite(v.Floor as real)
    case _ => n
  }

  /** `Math.max(a, b)`: NaN if either is NaN, else the larger of the two. */
  function Max(a: JsNumber, b: JsNumber): (r: JsNumber)
    ensures r.NaN? <==> a.NaN? || b.NaN?
    ensures !r.NaN? ==> (r == a || r == b) && AtLeast(r, a) && AtLeast(r, b)
  {
    if a.NaN? || b.NaN? then NaN else if Less(a, b) then b else a
  }

  /** JavaScript truthiness of a number: everything but NaN and zero. */
  predicate Truthy(n: JsNumber) {
    !n.NaN? && n != Finite(0.0)
  }

  /** `a || b` on numbers. */
  function Or(a: JsNumber, b: JsNumber): (r: JsNumber)
    ensures Truthy(r) || r == b
  {
    if Truthy(a) then a else b
  }
}
