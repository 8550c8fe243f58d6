/** The handful of Unity `Mathf` helpers and the C# `(int)` conversion that the
    wing code relies on, over `real` (float rounding is not modelled).  Each
    definition follows the engine's own branch structure; the contracts say
    what the result means for a caller. */
module Mathf {

  function Abs(x: real): (r: real)
    ensures r >= 0.0 && (r == x || r == -x)
  {
    if x >= 0.0 then x else -x
  }

  function Min(a: real, b: real): (r: real)
    ensures r <= a && r <= b && (r == a || r == b)
  {
    if a <= b then a else b
  }

  function Max(a: real, b: real): (r: real)
    ensures r >= a && r >= b && (r == a || r == b)
  {
    if a >= b then a else b
  }

  /** The C# cast `(int)x` of a finite value: truncation toward zero. */
  function TruncToInt(x: real): (i: int)
    ensures 0.0 <= x ==> 0 <= i && i as real <= x < i as real + 1.0
    ensures x < 0.0 ==> i <= 0 && i as real - 1.0 < x <= i as real
  {
    if x >= 0.0 then x.Floor else -((-x).Floor)
  }

  /** `Mathf.Clamp(value, min, max)`: the lower bound is tested first, so when
      `lo > hi` a value below `lo` still yields `lo`. */
  function Clamp(value: real, lo: real, hi: real): (r: real)
    ensures lo <= hi ==> lo <= r <= hi
    ensures lo <= value <= hi ==> r == value
    ensures r == value || r == lo || r == hi
  {
    if value < lo then lo
    else if value > hi then hi
    else value
  }

  /** With a proper interval, clamping picks the point of `[lo, hi]` nearest
      to `value`. */
  lemma ClampIsNearest(value: real, lo: real, hi: real, y: real)
    requires lo <= y <= hi
    ensures Abs(Clamp(value, lo, hi) - value) <= Abs(y - value)
  {
  }

  /** `Mathf.Clamp01(value)`. */
  function Clamp01(value: real): (r: real)
    ensures 0.0 <= r <= 1.0
    ensures 0.0 <= value <= 1.0 ==> r == value
    ensures r == Clamp(value, 0.0, 1.0)
  {
    if value < 0.0 then 0.0
    else if value > 1.0 then 1.0
    else value
  }

  /** `Mathf.Lerp(a, b, t)`: the weight is clamped to [0,1] first, so the
      result never leaves the segment between `a` and `b`. */
  function Lerp(a: real, b: real, t: real): (r: real)
    ensures Min(a, b) <= r <= Max(a, b)
    ensures t <= 0.0 ==> r == a
    ensures t >= 1.0 ==> r == b
  {
    var w := Clamp01(t);
    InterpolantBetween(a, b, w);
    a + (b - a) * w
  }

  /** A larger weight moves the interpolant further toward `b`. */
  lemma LerpMonotoneInWeight(a: real, b: real, t1: real, t2: real)
    requires a <= b && t1 <= t2
    ensures Lerp(a, b, t1) <= Lerp(a, b, t2)
  {
    var w1, w2 := Clamp01(t1), Clamp01(t2);
    MulNonneg(b - a, w2 - w1);
  }

  lemma MulNonneg(x: real, y: real)
    requires x >= 0.0 && y >= 0.0
    ensures x * y >= 0.0
  {
  }

  lemma MulPos(x: real, y: real)
    requires x > 0.0 && y > 0.0
    ensures x * y > 0.0
  {
  }

  /** A weight in [0,1] keeps `a + (b - a) * w` on the segment from `a` to `b`. */
  lemma InterpolantBetween(a: real, b: real, w: real)
    requires 0.0 <= w <= 1.0
    ensures Min(a, b) <= a + (b - a) * w <= Max(a, b)
  {
    MulNonneg(Abs(b - a), w);
    MulNonneg(Abs(b - a), 1.0 - w);
    assert (b - a) * w + (b - a) * (1.0 - w) == b - a;
  }

  /** `Mathf.MoveTowards(current, target, maxDelta)`: jump to `target` when it
      is within `maxDelta`, otherwise add `Sign(target - current) * maxDelta`,
      where `Mathf.Sign` is 1 for a non-negative argument and -1 otherwise.
      What a step promises is stated by `MoveTowardsStep`. */
  function MoveTowards(current: real, target: real, maxDelta: real): (r: real)
  {
    if Abs(target - current) <= maxDelta then target
    else if target - current >= 0.0 then current + maxDelta
    else current - maxDelta
  }

  /** One `MoveTowards` step with a non-negative budget moves by at most the
      budget, never past the target, lands on the target when it is within
      the budget, and otherwise closes the distance by exactly the budget. */
  lemma MoveTowardsStep(current: real, target: real, maxDelta: real)
    requires maxDelta >= 0.0
    ensures var r := MoveTowards(current, target, maxDelta);
            Abs(r - current) <= maxDelta &&
            Min(current, target) <= r <= Max(current, target) &&
            (Abs(target - current) <= maxDelta ==> r == target) &&
            Abs(target - r) == Max(0.0, Abs(target - current) - maxDelta)
  {
  }
}
