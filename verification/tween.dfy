/**
 * `tween.ts`: the named easing curves and `Tween`, which keeps one clamped elapsed time per
 * owner in a map and interpolates between two numbers along an easing curve.
 */
module Tweening {
  import opened Numeric

  datatype EasingName =
    | Linear | EaseInQuad | EaseOutQuad | EaseInOutQuad
    | EaseInCubic | EaseOutCubic | EaseInOutCubic | EaseOutBounce

  /** An easing given by name, or a caller's own curve. */
  datatype Easing = Named(name: EasingName) | Custom(f: real -> real)

  const BOUNCE_N1: real := 7.5625
  const BOUNCE_D1: real := 2.75

  /** `easeOutBounce`: four parabolic arcs, each branch shifting `t` before squaring it. */
  function Bounce(t: real): real {
    if t < 1.0 / BOUNCE_D1 then BOUNCE_N1 * t * t
    else if t < 2.0 / BOUNCE_D1 then
      var s := t - 1.5 / BOUNCE_D1; BOUNCE_N1 * s * s + 0.75
    else if t < 2.5 / BOUNCE_D1 then
      var s := t - 2.25 / BOUNCE_D1; BOUNCE_N1 * s * s + 0.9375
    else
      var s := t - 2.625 / BOUNCE_D1; BOUNCE_N1 * s * s + 0.984375
  }

  /** The `easing` table; `Math.pow(x, 2)` and `Math.pow(x, 3)` are written as products. */
  function Ease(name: EasingName, t: real): real {
    match name
    case Linear => t
    case EaseInQuad => t * t
    case EaseOutQuad => t * (2.0 - t)
    case EaseInOutQuad =>
      if t < 0.5 then 2.0 * t * t else var u := -2.0 * t + 2.0; 1.0 - u * u / 2.0
    case EaseInCubic => t * t * t
    case EaseOutCubic => var u := 1.0 - t; 1.0 - u * u * u
    case EaseInOutCubic =>
      if t < 0.5 then 4.0 * t * t * t else var u := -2.0 * t + 2.0; 1.0 - u * u * u / 2.0
    case EaseOutBounce => Bounce(t)
  }

  function Apply(e: Easing, t: real): real {
    match e
    case Named(name) => Ease(name, t)
    case Custom(f) => f(t)
  }

  /** Every named curve starts at 0 and ends at 1. */
  lemma EasingEndpoints(name: EasingName)
    ensures Ease(name, 0.0) == 0.0
    ensures Ease(name, 1.0) == 1.0
  {
    if name == EaseOutBounce {
      var s := 1.0 - 2.625 / BOUNCE_D1;
      assert s == 1.0 / 22.0;
      assert BOUNCE_N1 * s * s == 0.015625;
    }
  }

  /** The duration of one 60 fps frame in milliseconds, `1 / (60 / 1000)`. */
  const MS_PER_FRAME: real := 1000.0 / 60.0

  /** The elapsed time `to` stores for an owner: the previous one plus a frame's worth, clamped. */
  function NextElapsed(prev: real, deltaTime: real, total: real): (e: real)
    ensures 0.0 <= total ==> 0.0 <= e <= total
  {
    Clamp(prev + deltaTime * MS_PER_FRAME, 0.0, total)
  }

  /** With a non-negative delta the stored time of an owner never decreases. */
  lemma ElapsedNeverDecreases(prev: real, deltaTime: real, total: real)
    requires 0.0 <= prev <= total && deltaTime >= 0.0
    ensures prev <= NextElapsed(prev, deltaTime, total)
  {
    assert deltaTime * MS_PER_FRAME >= 0.0;
  }

  /**
   * The value `to` returns for a clamped elapsed time: `from` during the delay, `to` once the
   * whole time has run, and otherwise the eased interpolation with an easing argument in [0, 1).
   */
  function TweenValue(clamped: real, from: real, to: real, easing: Easing, duration: real, delay: real): (r: real)
    requires duration > 0.0
    ensures clamped < delay ==> r == from
    ensures delay <= clamped && clamped >= delay + duration ==> r == to
    ensures delay <= clamped < delay + duration ==>
      0.0 <= (clamped - delay) / duration < 1.0 &&
      r == Lerp(from, to, Apply(easing, (clamped - delay) / duration))
  {
    if clamped < delay then from
    else if clamped >= delay + duration then to
    else
      var t := (clamped - delay) / duration;
      assert 0.0 <= t < 1.0 by { UnitRatio(clamped - delay, duration); }
      Lerp(from, to, Apply(easing, t))
  }

  lemma UnitRatio(a: real, d: real)
    requires d > 0.0 && 0.0 <= a < d
    ensures 0.0 <= a / d < 1.0
  {
    var q := a / d;
    assert q * d == a;
    assert (q - 1.0) * d == a - d;
    if q >= 1.0 {
      NonNegativeProduct(q - 1.0, d);
    }
  }

  lemma NonNegativeProduct(a: real, b: real)
    requires a >= 0.0 && b >= 0.0
    ensures a * b >= 0.0
  {
  }

  /** Owners are JavaScript symbols, modelled by distinct numbers. */
  type Owner = nat

  class Tween {
    var states: map<Owner, real>
    var deltaTime: real

    constructor ()
      ensures states == map[] && deltaTime == 1.0
    {
      states := map[];
      deltaTime := 1.0;
    }

    method Dispose()
      modifies this
      ensures states == map[] && deltaTime == old(deltaTime)
    {
      states := map[];
    }

    method SetDeltaTime(dt: real)
      modifies this
      ensures deltaTime == dt && states == old(states)
    {
      deltaTime := dt;
    }

    /** `to(owner, from, to, type, duration_ms, delay_ms)`. */
    method To(owner: Owner, from: real, to: real, easing: Easing, duration: real, delay: real) returns (r: real)
      modifies this
      ensures deltaTime == old(deltaTime)
      ensures duration <= 0.0 ==> r == to && states == old(states)
      ensures duration > 0.0 ==>
        var prev := if owner in old(states) then old(states)[owner] else 0.0;
        var clamped := NextElapsed(prev, deltaTime, delay + duration);
        states == old(states)[owner := clamped] &&
        r == TweenValue(clamped, from, to, easing, duration, delay)
    {
      if duration <= 0.0 {
        return to;
      }
      var elapsed := (if owner in states then states[owner] else 0.0) + deltaTime * MS_PER_FRAME;
      var total := delay + duration;
      var clamped := Clamp(elapsed, 0.0, total);
      states := states[owner := clamped];
      if clamped < delay {
        return from;
      }
      if clamped >= total {
        return to;
      }
      var t := (clamped - delay) / duration;
      r := Lerp(from, to, Apply(easing, t));
    }

    /** `clear(owner)`: forgets that owner's progress and no other. */
    method Clear(owner: Owner)
      modifies this
      ensures states == old(states) - {owner} && deltaTime == old(deltaTime)
    {
      states := states - {owner};
    }
  }

  /** After a call with a positive duration and a non-negative delay, the stored time lies in [0, delay + duration]. */
  lemma StoredTimeInRange(prev: real, deltaTime: real, duration: real, delay: real)
    requires duration > 0.0 && delay >= 0.0
    ensures 0.0 <= NextElapsed(prev, deltaTime, delay + duration) <= delay + duration
  {
  }

  /** Enough calls finish any tween: once the stored time reaches the total, `to` is returned. */
  lemma FinishedTweenReturnsTarget(from: real, to: real, easing: Easing, duration: real, delay: real)
    requires duration > 0.0
    ensures TweenValue(delay + duration, from, to, easing, duration, delay) == to
    ensures TweenValue(delay, from, to, easing, duration, delay) == Lerp(from, to, Apply(easing, 0.0))
  {
    assert (delay - delay) / duration == 0.0;
  }
}
