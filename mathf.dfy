/** The UnityEngine.Mathf helpers the scripts rely on, as Unity defines them. */
module Mathf {

  /** Mathf.Clamp: `min` below the range, `max` above it, the value itself otherwise. */
  function Clamp(value: real, min: real, max: real): (r: real)
    ensures r == value || r == min || r == max
    ensures min <= max ==> min <= r <= max
    ensures min <= value <= max ==> r == value
  {
    if value < min then min else if value > max then max else value
  }

  /** Mathf.Clamp01: Clamp(t, 0, 1). */
  function Clamp01(t: real): (r: real)
    ensures 0.0 <= r <= 1.0
    ensures 0.0 <= t <= 1.0 ==> r == t
    ensures t <= 0.0 ==> r == 0.0
    ensures t >= 1.0 ==> r == 1.0
  {
    Clamp(t, 0.0, 1.0)
  }

  /** Mathf.Lerp: a + (b - a) * Clamp01(t), so the result never leaves the
      segment between `a` and `b`, and is `a` at t <= 0 and `b` at t >= 1. */
  function Lerp(a: real, b: real, t: real): (r: real)
    ensures a <= b ==> a <= r <= b
    ensures b <= a ==> b <= r <= a
    ensures t <= 0.0 ==> r == a
    ensures t >= 1.0 ==> r == b
  {
    var c := Clamp01(t);
    var r := a + (b - a) * c;
    ConvexStep(a, b, c, r);
    r
  }

  /** A step of fraction c in [0, 1] from a towards b stays between them. */
  lemma ConvexStep(a: real, b: real, c: real, r: real)
    requires 0.0 <= c <= 1.0
    requires r == a + (b - a) * c
    ensures a <= b ==> a <= r <= b
    ensures b <= a ==> b <= r <= a
  {
    var d := b - a;
    var e := 1.0 - c;
    assert r - a == d * c;
    assert b - r == d * e;
    if d >= 0.0 {
      NonNegativeProduct(d, c);
      NonNegativeProduct(d, e);
    } else {
      NonNegativeProduct(-d, c);
      NonNegativeProduct(-d, e);
    }
  }

  lemma NonNegativeProduct(x: real, y: real)
    requires 0.0 <= x && 0.0 <= y
    ensures 0.0 <= x * y
  {
  }
}
