/**
 * Arithmetic shared by the whole model: JavaScript numbers are modelled as `real`,
 * `Infinity` as `Ext.Infinite`, `Math.random()` as draws from a `Random` stream and
 * `Math.cos`/`Math.sin`/`Math.atan2`/`Math.sqrt` as functions supplied by the caller.
 */
module Numeric {

  /** A number that may be `Infinity` (only positive infinity occurs in the modelled code). */
  datatype Ext = Finite(v: real) | Infinite

  /** `x < e` for a possibly infinite `e`. */
  predicate Below(x: real, e: Ext) {
    e.Infinite? || x < e.v
  }

  function Max(a: real, b: real): real { if a >= b then a else b }

  function Min(a: real, b: real): real { if a <= b then a else b }

  /** `Math.min(Math.max(x, lo), hi)`, the clamp the library imports. */
  function Clamp(x: real, lo: real, hi: real): (r: real)
    ensures lo <= hi ==> lo <= r <= hi
    ensures lo <= x <= hi ==> r == x
    ensures lo <= hi && x <= lo ==> r == lo
    ensures lo <= hi && hi <= x ==> r == hi
  {
    Min(Max(x, lo), hi)
  }

  /** `lerp(a, b, t) = a + (b - a) * t`. */
  function Lerp(a: real, b: real, t: real): real {
    a + (b - a) * t
  }

  /** Linear interpolation hits both ends and stays between them for `t` in [0, 1]. */
  lemma LerpBetween(a: real, b: real, t: real)
    requires 0.0 <= t <= 1.0
    ensures Lerp(a, b, 0.0) == a && Lerp(a, b, 1.0) == b
    ensures Min(a, b) <= Lerp(a, b, t) <= Max(a, b)
  {
    var d := (b - a) * t;
    assert Lerp(a, b, t) == a + d;
    if a <= b {
      MulMono(b - a, t);
      assert 0.0 <= d <= b - a;
    } else {
      MulMono(a - b, t);
      assert (a - b) * t == -d;
      assert b - a <= d <= 0.0;
    }
  }

  lemma MulMono(k: real, t: real)
    requires 0.0 <= k && 0.0 <= t <= 1.0
    ensures 0.0 <= k * t <= k
  {
  }

  /** `Math.round`: the nearest integer, halves rounded up. */
  function Round(x: real): (r: int)
    ensures r as real - 0.5 <= x < r as real + 0.5
  {
    (x + 0.5).Floor
  }

  /** Truncation toward zero, as `x | 0` does before wrapping. */
  function Trunc(x: real): (r: int)
    ensures x >= 0.0 ==> 0 <= r && r as real <= x < r as real + 1.0
    ensures x < 0.0 ==> r <= 0 && r as real - 1.0 < x <= r as real
  {
    if x >= 0.0 then x.Floor else -((-x).Floor)
  }

  const TWO_32: int := 0x1_0000_0000
  const TWO_31: int := 0x8000_0000

  /** The two's-complement wrap of ECMAScript's ToInt32 applied to an integer. */
  function WrapInt32(n: int): (r: int)
    ensures -TWO_31 <= r < TWO_31
    ensures (r - n) % TWO_32 == 0
    ensures -TWO_31 <= n < TWO_31 ==> r == n
  {
    (n + TWO_31) % TWO_32 - TWO_31
  }

  /** `x | 0` for a finite number `x`. */
  function ToInt32(x: real): int {
    WrapInt32(Trunc(x))
  }

  /** The double closest to pi, `Math.PI`. */
  const PI: real := 3.141592653589793

  function ToRadians(deg: real): real { deg * PI / 180.0 }

  function ToDegrees(rad: real): real { rad * 180.0 / PI }

  /** A value `Math.random()` can return. */
  type Unit = u: real | 0.0 <= u < 1.0

  /**
   * The library's `Math` functions the model does not interpret. A caller supplies them;
   * the only law any proof relies on is `SqrtLaw`.
   */
  datatype MathFns = MathFns(cos: real -> real, sin: real -> real, atan2: (real, real) -> real, sqrt: real -> real)

  ghost predicate SqrtLaw(m: MathFns) {
    forall x: real :: 0.0 <= x ==> 0.0 <= m.sqrt(x) && m.sqrt(x) * m.sqrt(x) == x
  }

  /** The one trigonometric law a proof relies on: `cos(a)^2 + sin(a)^2 == 1`. */
  ghost predicate PythagoreanLaw(m: MathFns) {
    forall a: real :: m.cos(a) * m.cos(a) + m.sin(a) * m.sin(a) == 1.0
  }

  /** `Math.random()`: successive draws from a fixed stream of values in [0, 1). */
  class Random {
    const stream: nat -> Unit
    var draws: nat

    constructor (stream: nat -> Unit)
      ensures this.stream == stream && draws == 0
    {
      this.stream := stream;
      draws := 0;
    }

    method Next() returns (u: Unit)
      modifies this
      ensures u == stream(old(draws)) && draws == old(draws) + 1
    {
      u := stream(draws);
      draws := draws + 1;
    }
  }
}
