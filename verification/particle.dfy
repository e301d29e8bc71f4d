/**
 * `Particle` of `particle_emitter/particle.ts`: one particle's kinematic state, updated in
 * place by `reset`, `update` and the emitter's placement calls. Each method is specified by
 * a function on the particle's state (`Kin`); what the source promises about the motion is
 * proved about those functions.
 */
module Particles {
  import opened Numeric
  import opened Wrappers
  import opened MathUtils
  import opened KeyFrames
  import opened Behaviors

  /** The render-options record `update` writes: position, sampled looks and rotation in degrees. */
  datatype Render = Render(x: real, y: real, alpha: Option<real>, scale: Option<real>, tint: Option<Tint>, rotate: real)

  /** The fields of a particle that `reset` and `update` change; rotations are in radians. */
  datatype Kin = Kin(
    age: real,
    life: real,
    pos: Point,
    direction: Point,
    rotation: real,
    rotSpeed: real,
    rotAccel: real,
    vel: Point,
    acc: Point,
    maxSpeed: Ext,
    rotateToVelocity: bool,
    useAccelMotion: bool)

  /** `is_alive`. */
  predicate Alive(k: Kin) {
    k.age < k.life
  }

  /** A particle draws only when it has a static texture or an animation. */
  predicate HasTexture(look: Look) {
    look.texture.Some? || look.anim.Some?
  }

  /**
   * `clamp(age / life, 0, 1)` for a live particle. With `life == 0` a live particle has a
   * negative age, so the quotient is minus infinity and clamps to 0.
   */
  function LifeFraction(age: real, life: real): (t: real)
    requires age < life
    ensures 0.0 <= t <= 1.0
    ensures 0.0 <= age && 0.0 < life ==> t == age / life
  {
    if life == 0.0 then 0.0 else Clamp(age / life, 0.0, 1.0)
  }

  /** `get_speed?.(t) ?? 1`: the speed a source gives, 1 when there is none. */
  function SpeedOf(src: NumberSource, t: real, u: Unit): (s: real)
    ensures src.NoSource? ==> s == 1.0
    ensures !src.NoSource? ==> s == NumberValue(src, t, u).value
  {
    match NumberValue(src, t, u)
    case None => 1.0
    case Some(v) => v
  }

  /** `(max_speed ?? Infinity) || Infinity`: a missing or zero cap means no cap. */
  function MaxSpeedOf(cap: Option<real>): (m: Ext)
    ensures m.Infinite? <==> cap.None? || cap.value == 0.0
    ensures m.Finite? ==> m.v == cap.value
  {
    if cap.None? || cap.value == 0.0 then Infinite else Finite(cap.value)
  }

  function SpeedSq(v: Point): real {
    v.x * v.x + v.y * v.y
  }

  /**
   * The velocity clamp of `update`: with a finite positive cap `m` and `|v|^2 > m^2`, `v` is
   * scaled by `m / (|v| || 1e-6)`; otherwise it is kept.
   */
  function Clamped(v: Point, maxSpeed: Ext, fns: MathFns): Point {
    if maxSpeed.Finite? && maxSpeed.v > 0.0 && SpeedSq(v) > maxSpeed.v * maxSpeed.v then
      var s := fns.sqrt(SpeedSq(v));
      ScaledBy(v, maxSpeed.v / (if s == 0.0 then 0.000001 else s))
    else v
  }

  /**
   * Under a finite positive cap the clamped velocity is within the cap, exactly on it when
   * it was over; otherwise the velocity is kept.
   */
  lemma ClampBound(v: Point, maxSpeed: Ext, fns: MathFns)
    ensures !(maxSpeed.Finite? && maxSpeed.v > 0.0 && SpeedSq(v) > maxSpeed.v * maxSpeed.v) ==> Clamped(v, maxSpeed, fns) == v
    ensures SqrtLaw(fns) && maxSpeed.Finite? && maxSpeed.v > 0.0 ==>
      SpeedSq(Clamped(v, maxSpeed, fns)) <= maxSpeed.v * maxSpeed.v
    ensures SqrtLaw(fns) && maxSpeed.Finite? && maxSpeed.v > 0.0 && SpeedSq(v) > maxSpeed.v * maxSpeed.v ==>
      SpeedSq(Clamped(v, maxSpeed, fns)) == maxSpeed.v * maxSpeed.v
  {
    if maxSpeed.Finite? && maxSpeed.v > 0.0 && SpeedSq(v) > maxSpeed.v * maxSpeed.v {
      ClampHitsCap(v, fns.sqrt(SpeedSq(v)), maxSpeed.v, fns);
    }
  }

  /** `p + rate * dt`, one Euler step; `update` uses it for the velocity and the position. */
  function Integrate(p: Point, rate: Point, dt: real): Point {
    Point(p.x + rate.x * dt, p.y + rate.y * dt)
  }

  /** `v * k`. */
  function ScaledBy(v: Point, k: real): Point {
    Point(v.x * k, v.y * k)
  }

  /** Scaling by `m / sqrt(|v|^2)` lands exactly on the cap. */
  lemma ClampHitsCap(v: Point, s: real, m: real, fns: MathFns)
    requires m > 0.0 && SpeedSq(v) > m * m && s == fns.sqrt(SpeedSq(v))
    ensures SqrtLaw(fns) ==> s != 0.0 && SpeedSq(ScaledBy(v, m / s)) == m * m
  {
    if SqrtLaw(fns) {
      var sq := SpeedSq(v);
      assert s * s == sq;
      assert s != 0.0 by {
        assert m * m > 0.0;
      }
      var k := m / s;
      assert k * s == m;
      ScaledSpeedSq(v, k);
      assert k * k * sq == (k * s) * (k * s);
    }
  }

  lemma ScaledSpeedSq(v: Point, k: real)
    ensures SpeedSq(ScaledBy(v, k)) == k * k * SpeedSq(v)
  {
    assert (v.x * k) * (v.x * k) == k * k * (v.x * v.x);
    assert (v.y * k) * (v.y * k) == k * k * (v.y * v.y);
  }

  /** `Math.atan2(v.y, v.x)`: the heading of a velocity. */
  function Heading(v: Point, fns: MathFns): real {
    fns.atan2(v.y, v.x)
  }

  /** The spin step of `update`: `rot_speed += rot_accel * delta`, then `rotation += rot_speed * delta`. */
  function Spun(k: Kin, delta: real): Kin {
    var w := k.rotSpeed + k.rotAccel * delta;
    k.(rotSpeed := w, rotation := k.rotation + w * delta)
  }

  /** The acceleration branch of `update`: integrate, clamp, move, then face the velocity. */
  function AccelMoved(k: Kin, delta: real, fns: MathFns): Kin {
    var vel := Clamped(Integrate(k.vel, k.acc, delta), k.maxSpeed, fns);
    var facing := k.rotateToVelocity && (vel.x != 0.0 || vel.y != 0.0);
    k.(vel := vel, pos := Integrate(k.pos, vel, delta),
       rotation := if facing then Heading(vel, fns) else k.rotation)
  }

  /** The speed-over-lifetime branch of `update`: move along the direction, spin once more. */
  function SpeedMoved(k: Kin, delta: real, speed: NumberSource, u: Unit): Kin
    requires Alive(k)
  {
    var s := SpeedOf(speed, LifeFraction(k.age, k.life), u);
    k.(pos := Integrate(k.pos, ScaledBy(k.direction, s), delta),
       rotation := k.rotation + k.rotSpeed * delta)
  }

  /**
   * The state after `update(delta)`: `age` always advances; a particle that is then dead
   * changes nothing else. `u` is the draw a static speed range consumes.
   */
  function Moved(k: Kin, delta: real, speed: NumberSource, u: Unit, fns: MathFns): (r: Kin)
    ensures r.age == k.age + delta && r.life == k.life
    ensures !(k.age + delta < k.life) ==> r == k.(age := k.age + delta)
    ensures r.direction == k.direction && r.acc == k.acc && r.maxSpeed == k.maxSpeed
    ensures r.rotAccel == k.rotAccel && r.rotateToVelocity == k.rotateToVelocity && r.useAccelMotion == k.useAccelMotion
  {
    var aged := k.(age := k.age + delta);
    if !Alive(aged) then aged
    else if k.useAccelMotion then AccelMoved(Spun(aged, delta), delta, fns)
    else SpeedMoved(Spun(aged, delta), delta, speed, u)
  }

  /** How many draws `update` takes: a static speed range in speed mode, then a static scale range. */
  function SpeedDraws(k: Kin, look: Look): nat {
    if !k.useAccelMotion && look.speed.Uniform? then 1 else 0
  }

  function UpdateDraws(k: Kin, delta: real, look: Look): nat {
    if k.age + delta < k.life then
      SpeedDraws(k, look) + (if HasTexture(look) && look.scale.Uniform? then 1 else 0)
    else 0
  }

  /** The render record of a live particle; `u` is the draw a static scale range consumes. */
  function RenderOf(k: Kin, look: Look, u: Unit): (r: Render)
    requires Alive(k)
    ensures r.x == k.pos.x && r.y == k.pos.y && r.rotate == ToDegrees(k.rotation)
    ensures r.alpha.None? <==> look.alpha.NoSource?
    ensures r.scale.None? <==> look.scale.NoSource?
    ensures r.tint.None? <==> look.color.NoColor?
  {
    var t := LifeFraction(k.age, k.life);
    Render(k.pos.x, k.pos.y, NumberValue(look.alpha, t, u), NumberValue(look.scale, t, u),
      ColorValue(look.color, t), ToDegrees(k.rotation))
  }

  /** The seeded visual rotation, spin, angular acceleration and movement direction. */
  datatype Seed = Seed(rotation: real, rotSpeed: real, rotAccel: real, direction: Point)

  function SeedDraws(look: Look): nat {
    if look.rotationStatic.None? && look.rotation.Some? then 3 else 1
  }

  /**
   * `seed_rotation_from_behaviors` with draws `draw(n)`, `draw(n + 1)`, ...: a static range
   * fixes rotation and direction to one angle; a rotation config draws start angle, spin and
   * (separately) the direction; otherwise only a direction in [0, 360] degrees is drawn.
   */
  function SeedOf(look: Look, draw: nat -> Unit, n: nat, fns: MathFns): Seed {
    if look.rotationStatic.Some? then
      var r := look.rotationStatic.value;
      var rad := ToRadians(Lerp(r.min, r.max, draw(n)));
      Seed(rad, 0.0, 0.0, VecFromAngle(rad, 1.0, fns))
    else if look.rotation.Some? then
      var c := look.rotation.value;
      var startDeg := Lerp(c.minStart, c.maxStart, draw(n));
      var speedDeg := Lerp(c.minSpeed, c.maxSpeed, draw(n + 1));
      var deg := Lerp(c.minStart, c.maxStart, draw(n + 2));
      Seed(ToRadians(startDeg), ToRadians(speedDeg), ToRadians(c.accel), VecFromAngle(ToRadians(deg), 1.0, fns))
    else
      Seed(0.0, 0.0, 0.0, VecFromAngle(ToRadians(Lerp(0.0, 360.0, draw(n))), 1.0, fns))
  }

  /** A static rotation range replaces a rotation config; the particle then does not spin. */
  lemma RotationStaticBeatsRotation(look: Look, draw: nat -> Unit, n: nat, fns: MathFns)
    requires look.rotationStatic.Some?
    ensures SeedOf(look, draw, n, fns) == SeedOf(look.(rotation := None), draw, n, fns)
    ensures SeedDraws(look) == 1
    ensures var s := SeedOf(look, draw, n, fns);
      s.rotSpeed == 0.0 && s.rotAccel == 0.0 && s.direction == VecFromAngle(s.rotation, 1.0, fns)
    ensures var r := look.rotationStatic.value;
      r.min <= r.max ==> ToRadians(r.min) <= SeedOf(look, draw, n, fns).rotation <= ToRadians(r.max)
  {
    var r := look.rotationStatic.value;
    LerpBetween(r.min, r.max, draw(n));
  }

  function ResetDraws(look: Look): nat {
    1 + SeedDraws(look) + if look.accel.Some? then 1 else 0
  }

  /**
   * The motion mode `reset` chooses after seeding: acceleration mode when configured, with a
   * starting speed drawn by `u`; otherwise no velocity, acceleration or cap. Only the seeded
   * rotation, spin and direction of `k` are read.
   */
  function MotionMode(k: Kin, look: Look, u: Unit, fns: MathFns): Kin {
    if look.accel.Some? then AccelStart(k, look.accel.value, u, fns)
    else
      k.(useAccelMotion := false, vel := Point(0.0, 0.0), acc := Point(0.0, 0.0), maxSpeed := Infinite,
         rotateToVelocity := false)
  }

  /**
   * Acceleration mode: the starting speed drawn by `u` along the seeded direction; a particle
   * facing its velocity stops spinning and, when moving, turns to its heading.
   */
  function AccelStart(k: Kin, c: AccelConfig, u: Unit, fns: MathFns): Kin {
    var vel := ScaledBy(k.direction, Lerp(c.minStart, c.maxStart, u));
    var facing := c.rotate && (vel.x != 0.0 || vel.y != 0.0);
    k.(useAccelMotion := true, vel := vel, acc := c.accel, maxSpeed := MaxSpeedOf(c.maxSpeed),
       rotateToVelocity := c.rotate,
       rotSpeed := if c.rotate then 0.0 else k.rotSpeed,
       rotAccel := if c.rotate then 0.0 else k.rotAccel,
       rotation := if facing then Heading(vel, fns) else k.rotation)
  }

  /** `k` with the seeded rotation, spin, angular acceleration and direction. */
  function Seeded(k: Kin, seed: Seed): Kin {
    k.(rotation := seed.rotation, rotSpeed := seed.rotSpeed, rotAccel := seed.rotAccel, direction := seed.direction)
  }

  /** The fields `reset` sets before seeding: a new lifetime drawn by `u`, age 0, the origin. */
  function ResetStart(lifetime: RandNumber, origin: Point, u: Unit): Kin {
    Kin(0.0, Lerp(lifetime.min, lifetime.max, u), origin, Point(0.0, 0.0), 0.0, 0.0, 0.0,
      Point(0.0, 0.0), Point(0.0, 0.0), Infinite, false, false)
  }

  /**
   * The state `reset` leaves, with draws `draw(n)`, ... : lifetime first, then the seed, then
   * the starting speed of acceleration mode. No field of the earlier state survives.
   */
  function ResetKin(look: Look, lifetime: RandNumber, origin: Point, draw: nat -> Unit, n: nat, fns: MathFns): (r: Kin)
    ensures r.age == 0.0 && r.pos == origin && (Alive(r) <==> 0.0 < r.life)
    ensures lifetime.min <= lifetime.max ==> lifetime.min <= r.life <= lifetime.max
    ensures r.useAccelMotion <==> look.accel.Some?
    ensures look.accel.None? ==>
      r.vel == Point(0.0, 0.0) && r.acc == Point(0.0, 0.0) && r.maxSpeed == Infinite && !r.rotateToVelocity
    ensures look.accel.Some? ==>
      r.acc == look.accel.value.accel && r.maxSpeed == MaxSpeedOf(look.accel.value.maxSpeed) &&
      r.rotateToVelocity == look.accel.value.rotate
    ensures r.rotateToVelocity ==> r.rotSpeed == 0.0 && r.rotAccel == 0.0
  {
    LerpBetween(lifetime.min, lifetime.max, draw(n));
    MotionMode(Seeded(ResetStart(lifetime, origin, draw(n)), SeedOf(look, draw, n + 1, fns)), look, draw(n + 1 + SeedDraws(look)), fns)
  }

  /**
   * `reset` forgets the earlier state: from any state `k0`, the new lifetime, age and position,
   * then the seed, then the motion mode give `ResetKin`.
   */
  lemma ResetForgets(k0: Kin, look: Look, lifetime: RandNumber, origin: Point, draw: nat -> Unit, n: nat, fns: MathFns)
    ensures ResetKin(look, lifetime, origin, draw, n, fns) ==
      MotionMode(Seeded(k0.(age := 0.0, life := Lerp(lifetime.min, lifetime.max, draw(n)), pos := origin), SeedOf(look, draw, n + 1, fns)),
        look, draw(n + 1 + SeedDraws(look)), fns)
  {
  }

  /** A dead particle only ages; `update` never revives one. */
  lemma DeadParticleOnlyAges(k: Kin, delta: real, speed: NumberSource, u: Unit, fns: MathFns)
    requires !Alive(k) && delta >= 0.0
    ensures Moved(k, delta, speed, u, fns) == k.(age := k.age + delta)
    ensures !Alive(Moved(k, delta, speed, u, fns))
  {
  }

  /**
   * In speed mode the rotation advances by `rot_speed * delta` twice in one tick, and the
   * position moves `speed * delta` along the direction, with speed 1 when there is no sampler.
   */
  lemma SpeedModeMotion(k: Kin, delta: real, speed: NumberSource, u: Unit, fns: MathFns)
    requires Alive(k.(age := k.age + delta)) && !k.useAccelMotion
    ensures var r := Moved(k, delta, speed, u, fns);
      var w := k.rotSpeed + k.rotAccel * delta;
      r.rotSpeed == w && r.rotation == k.rotation + 2.0 * (w * delta)
    ensures speed.NoSource? ==>
      Moved(k, delta, speed, u, fns).pos == Integrate(k.pos, k.direction, delta)
  {
  }

  /**
   * In acceleration mode with a finite positive cap, the new velocity is within the cap;
   * when facing the velocity, a moving particle's rotation is its heading.
   */
  lemma AccelModeMotion(k: Kin, delta: real, speed: NumberSource, u: Unit, fns: MathFns)
    requires Alive(k.(age := k.age + delta)) && k.useAccelMotion
    ensures var r := Moved(k, delta, speed, u, fns);
      SqrtLaw(fns) && k.maxSpeed.Finite? && k.maxSpeed.v > 0.0 ==> SpeedSq(r.vel) <= k.maxSpeed.v * k.maxSpeed.v
    ensures var r := Moved(k, delta, speed, u, fns);
      k.rotateToVelocity && r.vel != Point(0.0, 0.0) ==> r.rotation == Heading(r.vel, fns)
    ensures var r := Moved(k, delta, speed, u, fns);
      r.pos == Integrate(k.pos, r.vel, delta)
  {
    ClampBound(Integrate(k.vel, k.acc, delta), k.maxSpeed, fns);
  }

  class Particle {
    const config: EmitterConfig
    const look: Look
    var age: real
    var life: real
    var pos: Point
    var direction: Point
    var rotation: real
    var rotSpeed: real
    var rotAccel: real
    var vel: Point
    var acc: Point
    var maxSpeed: Ext
    var rotateToVelocity: bool
    var useAccelMotion: bool
    /** The reused render-options record; `None` until the first live update writes it. */
    var drawn: Option<Render>

    function State(): Kin
      reads this
    {
      Kin(age, life, pos, direction, rotation, rotSpeed, rotAccel, vel, acc, maxSpeed, rotateToVelocity, useAccelMotion)
    }

    /** `is_alive`. */
    predicate IsAlive()
      reads this
    {
      age < life
    }

    /** The constructor keeps the resolved look and ends with `reset`. */
    constructor (config: EmitterConfig, look: Look, rng: Random, fns: MathFns)
      modifies rng
      ensures this.config == config && this.look == look && drawn == None
      ensures State() == ResetKin(look, config.lifetime, config.pos, rng.stream, old(rng.draws), fns)
      ensures rng.draws == old(rng.draws) + ResetDraws(look)
    {
      this.config := config;
      this.look := look;
      age := 0.0;
      life := 1.0;
      pos := Point(0.0, 0.0);
      direction := Point(0.0, 0.0);
      rotation := 0.0;
      rotSpeed := 0.0;
      rotAccel := 0.0;
      vel := Point(0.0, 0.0);
      acc := Point(0.0, 0.0);
      maxSpeed := Infinite;
      rotateToVelocity := false;
      useAccelMotion := false;
      drawn := None;
      new;
      Reset(rng, fns);
    }

    /** `reset`: a new lifetime, the configured position, a new seed and the motion mode. */
    method Reset(rng: Random, fns: MathFns)
      modifies this, rng
      ensures State() == ResetKin(look, config.lifetime, config.pos, rng.stream, old(rng.draws), fns)
      ensures rng.draws == old(rng.draws) + ResetDraws(look)
      ensures drawn == old(drawn)
    {
      ghost var k0 := State();
      ghost var n := rng.draws;
      ResetLife(rng);
      SeedRotationFromBehaviors(rng, fns);
      StartMotion(rng, fns);
      ResetForgets(k0, look, config.lifetime, config.pos, rng.stream, n, fns);
    }

    /** The first half of `reset`: a lifetime drawn from the configured range, age 0, the configured position. */
    method ResetLife(rng: Random)
      modifies this, rng
      ensures State() == old(State()).(age := 0.0, life := Lerp(config.lifetime.min, config.lifetime.max, rng.stream(old(rng.draws))), pos := config.pos)
      ensures rng.draws == old(rng.draws) + 1 && drawn == old(drawn)
    {
      var u := rng.Next();
      life := Lerp(config.lifetime.min, config.lifetime.max, u);
      age := 0.0;
      pos := config.pos;
    }

    /** The motion-mode half of `reset`. */
    method StartMotion(rng: Random, fns: MathFns)
      modifies this, rng
      ensures State() == MotionMode(old(State()), look, rng.stream(old(rng.draws)), fns)
      ensures rng.draws == old(rng.draws) + if look.accel.Some? then 1 else 0
      ensures drawn == old(drawn)
    {
      if look.accel.Some? {
        var w := rng.Next();
        StartAcceleration(look.accel.value, w, fns);
      } else {
        useAccelMotion := false;
        vel := Point(0.0, 0.0);
        acc := Point(0.0, 0.0);
        maxSpeed := Infinite;
        rotateToVelocity := false;
      }
    }

    /** The acceleration-mode branch of `reset`, with starting-speed draw `w`. */
    method StartAcceleration(c: AccelConfig, w: Unit, fns: MathFns)
      modifies this
      ensures State() == AccelStart(old(State()), c, w, fns) && drawn == old(drawn)
    {
      useAccelMotion := true;
      vel := ScaledBy(direction, Lerp(c.minStart, c.maxStart, w));
      acc := c.accel;
      maxSpeed := MaxSpeedOf(c.maxSpeed);
      rotateToVelocity := c.rotate;
      if rotateToVelocity {
        rotSpeed := 0.0;
        rotAccel := 0.0;
        if vel.x != 0.0 || vel.y != 0.0 {
          rotation := Heading(vel, fns);
        }
      }
    }

    /** `seed_rotation_from_behaviors`. */
    method SeedRotationFromBehaviors(rng: Random, fns: MathFns)
      modifies this, rng
      ensures State() == Seeded(old(State()), SeedOf(look, rng.stream, old(rng.draws), fns))
      ensures rng.draws == old(rng.draws) + SeedDraws(look) && drawn == old(drawn)
    {
      if look.rotationStatic.Some? {
        var r := look.rotationStatic.value;
        var u := rng.Next();
        var deg := Lerp(r.min, r.max, u);
        rotation := ToRadians(deg);
        rotSpeed := 0.0;
        rotAccel := 0.0;
        direction := VecFromAngle(ToRadians(deg), 1.0, fns);
      } else if look.rotation.Some? {
        var c := look.rotation.value;
        var u1 := rng.Next();
        var startDeg := Lerp(c.minStart, c.maxStart, u1);
        var u2 := rng.Next();
        var speedDeg := Lerp(c.minSpeed, c.maxSpeed, u2);
        rotation := ToRadians(startDeg);
        rotSpeed := ToRadians(speedDeg);
        rotAccel := ToRadians(c.accel);
        var u3 := rng.Next();
        var deg := Lerp(c.minStart, c.maxStart, u3);
        direction := VecFromAngle(ToRadians(deg), 1.0, fns);
      } else {
        rotation := 0.0;
        rotSpeed := 0.0;
        rotAccel := 0.0;
        var u := rng.Next();
        var deg := Lerp(0.0, 360.0, u);
        direction := VecFromAngle(ToRadians(deg), 1.0, fns);
      }
    }

    /** `update_spawn_pos`: moves the particle and nothing else. */
    method UpdateSpawnPos(x: real, y: real)
      modifies this
      ensures State() == old(State()).(pos := Point(x, y)) && drawn == old(drawn)
    {
      pos := Point(x, y);
    }

    /** `seed_direction_from_angle`: the direction of `rad`, which also becomes the rotation when facing the velocity. */
    method SeedDirectionFromAngle(rad: real, fns: MathFns)
      modifies this
      ensures State() == old(State()).(direction := VecFromAngle(rad, 1.0, fns),
                                       rotation := if rotateToVelocity then rad else old(rotation))
      ensures drawn == old(drawn)
    {
      direction := Point(fns.cos(rad), fns.sin(rad));
      assert direction == VecFromAngle(rad, 1.0, fns);
      if rotateToVelocity {
        rotation := rad;
      }
    }

    /**
     * `update(delta)`: the state becomes `Moved(...)`; a particle alive after ageing that has
     * a texture rewrites its render record.
     */
    method Update(delta: real, rng: Random, fns: MathFns)
      modifies this, rng
      ensures var k := old(State());
        State() == Moved(k, delta, look.speed, rng.stream(old(rng.draws)), fns) &&
        rng.draws == old(rng.draws) + UpdateDraws(k, delta, look)
      ensures var k := old(State());
        drawn == if k.age + delta < k.life && HasTexture(look)
          then Some(RenderOf(State(), look, if look.scale.Uniform? then rng.stream(old(rng.draws) + SpeedDraws(k, look)) else 0.0))
          else old(drawn)
    {
      ghost var k := State();
      age := age + delta;
      if !(age < life) {
        return;
      }
      Spin(delta);
      if useAccelMotion {
        AccelerationStep(delta, fns);
      } else {
        SpeedStep(delta, rng);
      }
      assert State() == Moved(k, delta, look.speed, rng.stream(old(rng.draws)), fns);
      assert rng.draws == old(rng.draws) + SpeedDraws(k, look);
      if HasTexture(look) {
        var u: Unit := 0.0;
        if look.scale.Uniform? {
          u := rng.Next();
        }
        drawn := Some(RenderOf(State(), look, u));
      }
    }

    method Spin(delta: real)
      modifies this
      ensures State() == Spun(old(State()), delta) && drawn == old(drawn)
    {
      rotSpeed := rotSpeed + rotAccel * delta;
      rotation := rotation + rotSpeed * delta;
    }

    /** The acceleration branch of `update`. */
    method AccelerationStep(delta: real, fns: MathFns)
      modifies this
      ensures State() == AccelMoved(old(State()), delta, fns) && drawn == old(drawn)
    {
      vel := Integrate(vel, acc, delta);
      vel := Clamped(vel, maxSpeed, fns);
      pos := Integrate(pos, vel, delta);
      if rotateToVelocity && (vel.x != 0.0 || vel.y != 0.0) {
        rotation := Heading(vel, fns);
      }
    }

    /** The speed-over-lifetime branch of `update`; a static speed range takes one draw. */
    method SpeedStep(delta: real, rng: Random)
      requires IsAlive()
      modifies this, rng
      ensures State() == SpeedMoved(old(State()), delta, look.speed, rng.stream(old(rng.draws))) && drawn == old(drawn)
      ensures rng.draws == old(rng.draws) + if look.speed.Uniform? then 1 else 0
    {
      var t := LifeFraction(age, life);
      var u: Unit := 0.0;
      if look.speed.Uniform? {
        u := rng.Next();
      }
      var speed := SpeedOf(look.speed, t, u);
      assert speed == SpeedOf(look.speed, t, rng.stream(old(rng.draws)));
      pos := Integrate(pos, ScaledBy(direction, speed), delta);
      rotation := rotation + rotSpeed * delta;
    }
  }

  /**
   * The number of the first draw `reset` makes when the constructor starts at draw `d0`: one
   * draw per random texture or animation list comes first.
   */
  function AfterLook(list: seq<Behavior>, d0: nat): nat {
    d0 + (if Find(list, TextureRandomTag).Some? then 1 else 0) + (if Find(list, AnimatedRandomTag).Some? then 1 else 0)
  }

  /**
   * The look the constructor resolves when the stream's next draw is number `d0`; the
   * animation is drawn only once the texture lookup has not thrown.
   */
  function DrawnLook(list: seq<Behavior>, stream: nat -> Unit, d0: nat): Result<Look> {
    var d1 := if Find(list, TextureRandomTag).Some? then d0 + 1 else d0;
    var uTexture := if Find(list, TextureRandomTag).Some? then stream(d0) else 0.0;
    var uAnim := if TextureOf(list, uTexture).Success? && Find(list, AnimatedRandomTag).Some? then stream(d1) else 0.0;
    Resolve(list, uTexture, uAnim)
  }

  /**
   * The lookups of the constructor: the random texture is drawn (and can throw) before the
   * random animation. Resolution fails exactly when a random list is empty.
   */
  method DrawLook(list: seq<Behavior>, rng: Random) returns (r: Result<Look>)
    modifies rng
    ensures r == DrawnLook(list, rng.stream, old(rng.draws))
    ensures r.Success? ==> rng.draws == AfterLook(list, old(rng.draws))
  {
    var uTexture: Unit := 0.0;
    if Find(list, TextureRandomTag).Some? {
      uTexture := rng.Next();
    }
    if TextureOf(list, uTexture).Failure? {
      return Resolve(list, uTexture, 0.0);
    }
    var uAnim: Unit := 0.0;
    if Find(list, AnimatedRandomTag).Some? {
      uAnim := rng.Next();
    }
    r := Resolve(list, uTexture, uAnim);
  }

  /** Whatever the draws, the lookups throw exactly when a random list is empty. */
  lemma DrawnLookFails(list: seq<Behavior>, stream: nat -> Unit, d0: nat)
    ensures DrawnLook(list, stream, d0).Failure? <==> !Resolvable(list)
  {
    var d1 := if Find(list, TextureRandomTag).Some? then d0 + 1 else d0;
    var uTexture := if Find(list, TextureRandomTag).Some? then stream(d0) else 0.0;
    var uAnim := if TextureOf(list, uTexture).Success? && Find(list, AnimatedRandomTag).Some? then stream(d1) else 0.0;
    ResolvableIff(list, uTexture, uAnim);
  }

  /** `new Particle(kl, config)`: the lookups, then the particle is reset. */
  method CreateParticle(config: EmitterConfig, rng: Random, fns: MathFns) returns (r: Result<Particle>)
    modifies rng
    ensures r.Failure? <==> !Resolvable(config.behaviors)
    ensures r.Success? ==>
      fresh(r.value) && r.value.config == config &&
      r.value.look == DrawnLook(config.behaviors, rng.stream, old(rng.draws)).value &&
      r.value.drawn == None
    ensures r.Success? ==>
      r.value.State() == ResetKin(r.value.look, config.lifetime, config.pos, rng.stream, AfterLook(config.behaviors, old(rng.draws)), fns)
    ensures r.Success? ==> rng.draws == AfterLook(config.behaviors, old(rng.draws)) + ResetDraws(r.value.look)
  {
    ghost var d0 := rng.draws;
    DrawnLookFails(config.behaviors, rng.stream, d0);
    var look := DrawLook(config.behaviors, rng);
    if look.Failure? {
      return Failure(look.error);
    }
    var p := new Particle(config, look.value, rng, fns);
    r := Success(p);
  }
}
