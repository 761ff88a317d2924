/**
 * JavaScript numbers. A finite number is a mathematical real, so finite
 * arithmetic is exact (IEEE-754 rounding is not modelled); the special
 * values NaN, +Infinity and -Infinity are kept because the source's
 * coercions (`x || 1`, `Number.isFinite`, `isFinite`) branch on them.
 */
module JsNum {

  datatype Num = Fin(v: real) | NaN | Inf(negative: bool)

  const Zero: Num := Fin(0.0)
  const One: Num := Fin(1.0)

  /** `Number.isFinite(x)` (and the global `isFinite` on a number). */
  predicate IsFinite(n: Num) {
    n.Fin?
  }

  /** A finite number with no fractional part. */
  predicate IsInteger(n: Num) {
    n.Fin? && n.v == n.v.Floor as real
  }

  /** JavaScript truthiness of a number: 0 and NaN are falsy. */
  predicate NumTruthy(n: Num) {
    match n
    case Fin(v) => v != 0.0
    case NaN => false
    case Inf(_) => true
  }

  /** `a || b` on numbers. */
  function NumOr(a: Num, b: Num): (r: Num)
    ensures NumTruthy(a) ==> r == a
    ensures !NumTruthy(a) ==> r == b
  {
    if NumTruthy(a) then a else b
  }

  /** `a < b` as JavaScript compares numbers (false whenever NaN is involved). */
  predicate Less(a: Num, b: Num) {
    match (a, b)
    case (Fin(x), Fin(y)) => x < y
    case (Inf(true), Fin(_)) => true
    case (Inf(true), Inf(false)) => true
    case (Fin(_), Inf(false)) => true
    case _ => false
  }

  /** `a <= b` as JavaScript compares numbers. */
  predicate LessEq(a: Num, b: Num) {
    Less(a, b) || (a == b && !a.NaN?)
  }

  /** `Math.floor`. */
  function Floor(n: Num): (r: Num)
    ensures n.Fin? ==> IsInteger(r) && r.v <= n.v < r.v + 1.0
    ensures !n.Fin? ==> r == n
  {
    match n
    case Fin(v) => Fin(v.Floor as real)
    case _ => n
  }

  /** `Math.round`: the nearest integer, halves rounded towards +Infinity. */
  function Round(n: Num): (r: Num)
    ensures n.Fin? ==> IsInteger(r) && r.v - 0.5 <= n.v < r.v + 0.5
    ensures !n.Fin? ==> r == n
  {
    match n
    case Fin(v) => Fin((v + 0.5).Floor as real)
    case _ => n
  }

  /** `Math.max` of two numbers: NaN if either is NaN. */
  function Max(a: Num, b: Num): (r: Num)
    ensures (a.NaN? || b.NaN?) <==> r.NaN?
    ensures !r.NaN? ==> LessEq(a, r) && LessEq(b, r) && (r == a || r == b)
  {
    if a.NaN? || b.NaN? then NaN else if Less(a, b) then b else a
  }

  /** `Math.min` of two numbers: NaN if either is NaN. */
  function Min(a: Num, b: Num): (r: Num)
    ensures (a.NaN? || b.NaN?) <==> r.NaN?
    ensures !r.NaN? ==> LessEq(r, a) && LessEq(r, b) && (r == a || r == b)
  {
    if a.NaN? || b.NaN? then NaN else if Less(b, a) then b else a
  }

  /** `a + b`. */
  function Add(a: Num, b: Num): (r: Num)
    ensures a.Fin? && b.Fin? ==> r == Fin(a.v + b.v)
    ensures (a.NaN? || b.NaN?) ==> r.NaN?
  {
    match (a, b)
    case (Fin(x), Fin(y)) => Fin(x + y)
    case (NaN, _) => NaN
    case (_, NaN) => NaN
    case (Inf(s), Inf(t)) => if s == t then a else NaN
    case (Inf(_), Fin(_)) => a
    case (Fin(_), Inf(_)) => b
  }

  /** `a * b`. */
  function Mul(a: Num, b: Num): (r: Num)
    ensures a.Fin? && b.Fin? ==> r == Fin(a.v * b.v)
    ensures (a.NaN? || b.NaN?) ==> r.NaN?
  {
    if a.NaN? || b.NaN? then NaN
    else if a.Fin? && b.Fin? then Fin(a.v * b.v)
    else if a.Inf? && b.Inf? then Inf(a.negative != b.negative)
    else if a.Inf? then (if b.v == 0.0 then NaN else Inf(a.negative != (b.v < 0.0)))
    else if a.v == 0.0 then NaN else Inf(b.negative != (a.v < 0.0))
  }

  /**
   * The quantity clamp the storefront applies to every cart line:
   * `Math.min(50, Math.max(1, Math.floor(q || 1)))`. Whatever number it
   * is given, the result is a whole number from 1 to 50.
   */
  function ClampQty(q: Num): (r: Num)
    ensures IsInteger(r) && 1.0 <= r.v <= 50.0
    ensures IsInteger(q) && 1.0 <= q.v <= 50.0 ==> r == q
    ensures q.Inf? && !q.negative ==> r == Fin(50.0)
    ensures !NumTruthy(q) ==> r == One
  {
    Min(Fin(50.0), Max(One, Floor(NumOr(q, One))))
  }

  /** An integer-valued finite number times a small whole number stays integer-valued. */
  lemma IntegerProduct(a: Num, b: Num)
    requires IsInteger(a) && IsInteger(b)
    ensures IsInteger(Mul(a, b))
  {
    var i, j := a.v.Floor, b.v.Floor;
    assert a.v == i as real && b.v == j as real;
    var k := i * j;
    assert k as real == a.v * b.v;
    assert (k as real).Floor == k;
    assert Mul(a, b) == Fin(k as real);
  }
}
