/**
 * The geometry validators of the shared utilities: `isValidPosition`,
 * `isValidWidgetId` and `sanitizePosition`. They take arbitrary JavaScript
 * numbers, so NaN, fractions and the infinities are all possible inputs.
 */
module Validators {
  import opened JsNumbers
  import opened Wrappers

  const Zero: JsNumber := Finite(0.0)

  /** On the number line at or right of zero (so not NaN, not -Infinity). */
  predicate NonNegative(n: JsNumber) {
    n.PosInfinity? || (n.Finite? && n.value >= 0.0)
  }

  /** Strictly right of zero on the number line. */
  predicate Positive(n: JsNumber) {
    n.PosInfinity? || (n.Finite? && n.value > 0.0)
  }

  /**
   * `isValidPosition(x, y, w, h)`: x and y at least zero, w and h above zero,
   * none NaN. Fractions and +Infinity pass.
   */
  function IsValidPosition(x: JsNumber, y: JsNumber, w: JsNumber, h: JsNumber): (ok: bool)
    ensures ok <==> NonNegative(x) && NonNegative(y) && Positive(w) && Positive(h)
  {
    AtLeast(x, Zero) && AtLeast(y, Zero) && Less(Zero, w) && Less(Zero, h)
    && !x.NaN? && !y.NaN? && !w.NaN? && !h.NaN?
  }

  /**
   * `isValidWidgetId(id)`: a string of at least one character. `None` stands
   * for a value that is not a string at all (`null` from a missing attribute).
   */
  function IsValidWidgetId(id: Option<string>): (ok: bool)
    ensures ok <==> id.Some? && id.value != ""
  {
    id.Some? && |id.value| > 0
  }

  datatype Position = Position(x: JsNumber, y: JsNumber, w: JsNumber, h: JsNumber)

  /** One field of `sanitizePosition`: `Math.max(fallback, Math.floor(v) || fallback)`. */
  function SanitizeComponent(v: JsNumber, fallback: nat): (r: JsNumber)
    ensures !r.NaN? && IsWhole(r) && AtLeast(r, FromInt(fallback))
    ensures v.NaN? ==> r == FromInt(fallback)
    ensures v.Finite? ==> r == FromInt(if v.value.Floor < fallback then fallback else v.value.Floor)
    ensures v.PosInfinity? ==> r == PosInfinity
    ensures v.NegInfinity? ==> r == FromInt(fallback)
  {
    Max(FromInt(fallback), Or(Floor(v), FromInt(fallback)))
  }

  /**
   * `sanitizePosition(x, y, w, h)`: floors every field, turns NaN (and a floor
   * of zero) into the fallback 0 for x, y and 1 for w, h, and raises anything
   * below the fallback to it.
   */
  function SanitizePosition(x: JsNumber, y: JsNumber, w: JsNumber, h: JsNumber): (r: Position)
    ensures IsValidPosition(r.x, r.y, r.w, r.h)
    ensures AtLeast(r.w, FromInt(1)) && AtLeast(r.h, FromInt(1))
    ensures IsWhole(r.x) && IsWhole(r.y) && IsWhole(r.w) && IsWhole(r.h)
  {
    Position(SanitizeComponent(x, 0), SanitizeComponent(y, 0),
             SanitizeComponent(w, 1), SanitizeComponent(h, 1))
  }

  /** NaN in every field gives the rectangle (0, 0, 1, 1). */
  lemma SanitizeAllNaN()
    ensures SanitizePosition(NaN, NaN, NaN, NaN) == Position(FromInt(0), FromInt(0), FromInt(1), FromInt(1))
  {
  }

  /** A width or height strictly between 0 and 1 floors to 0, which `|| 1` turns into 1. */
  lemma SanitizeSubUnitSize(v: real)
    requires 0.0 < v < 1.0
    ensures SanitizeComponent(Finite(v), 1) == FromInt(1)
  {
  }

  /** A negative x or y becomes 0. */
  lemma SanitizeNegativeCoordinate(v: real)
    requires v < 0.0
    ensures SanitizeComponent(Finite(v), 0) == FromInt(0)
  {
  }

  /** A whole field at or above its fallback is left as it is. */
  lemma SanitizeComponentFixes(v: JsNumber, fallback: nat)
    requires IsWhole(v) && AtLeast(v, FromInt(fallback))
    ensures SanitizeComponent(v, fallback) == v
  {
    if v.Finite? {
      assert v.value.Floor as real == v.value;
    }
  }

  /**
   * Whole, valid positions with w, h at least 1 are fixed points; among them
   * every integer rectangle with x, y >= 0 and w, h >= 1.
   */
  lemma SanitizeFixesWholeValid(p: Position)
    requires IsValidPosition(p.x, p.y, p.w, p.h)
    requires IsWhole(p.x) && IsWhole(p.y) && IsWhole(p.w) && IsWhole(p.h)
    ensures SanitizePosition(p.x, p.y, p.w, p.h) == p
  {
    SanitizeComponentFixes(p.x, 0);
    SanitizeComponentFixes(p.y, 0);
    WholePositiveIsAtLeastOne(p.w);
    WholePositiveIsAtLeastOne(p.h);
    SanitizeComponentFixes(p.w, 1);
    SanitizeComponentFixes(p.h, 1);
  }

  lemma WholePositiveIsAtLeastOne(n: JsNumber)
    requires IsWhole(n) && Positive(n)
    ensures AtLeast(n, FromInt(1))
  {
    if n.Finite? {
      assert n.value.Floor >= 1;
    }
  }

  /** Integer rectangles with x, y >= 0 and w, h >= 1 come back unchanged. */
  lemma SanitizeIdentityOnIntegers(x: nat, y: nat, w: int, h: int)
    requires w >= 1 && h >= 1
    ensures SanitizePosition(FromInt(x), FromInt(y), FromInt(w), FromInt(h))
         == Position(FromInt(x), FromInt(y), FromInt(w), FromInt(h))
  {
    SanitizeFixesWholeValid(Position(FromInt(x), FromInt(y), FromInt(w), FromInt(h)));
  }

  /** Sanitizing twice is sanitizing once. */
  lemma SanitizeIdempotent(x: JsNumber, y: JsNumber, w: JsNumber, h: JsNumber)
    ensures var p := SanitizePosition(x, y, w, h);
            SanitizePosition(p.x, p.y, p.w, p.h) == p
  {
    SanitizeFixesWholeValid(SanitizePosition(x, y, w, h));
  }

  /**
   * `isValidPosition` is weaker than "sanitized": it accepts a fractional
   * size and an infinite coordinate that `sanitizePosition` would change.
   */
  lemma ValidYetNotSanitized()
    ensures IsValidPosition(PosInfinity, Finite(2.5), Finite(0.5), Finite(1.0))
    ensures SanitizePosition(PosInfinity, Finite(2.5), Finite(0.5), Finite(1.0))
         != Position(PosInfinity, Finite(2.5), Finite(0.5), Finite(1.0))
  {
    assert SanitizeComponent(Finite(0.5), 1) == FromInt(1);
  }
}
