/**
 * `ParticleEmitter` of `particle_emitter/particle_emitter.ts`: per tick it converts the delta
 * to seconds, spawns waves of particles while its spawn timer allows, ages itself, updates
 * every active particle and returns the dead ones to its pool, and finally decides whether
 * it has completed. The pool is `Pooling.PoolBag`, whose release hook (`reset`) the emitter
 * runs itself right after each release.
 */
module Emitters {
  import opened Numeric
  import opened Wrappers
  import opened MathUtils
  import opened Behaviors
  import opened Particles
  import opened Pooling

  /** The `spawnBurst` config: the first angle and the spacing between particles, in degrees. */
  datatype Burst = Burst(start: real, spacing: real)

  /** The cached `spawnShape` config: the first `spawnShape` entry's shape. */
  function ShapeOf(list: seq<Behavior>): (r: Option<ShapeConfig>)
    ensures r.Some? <==> Find(list, SpawnShapeTag).Some?
    ensures r.Some? ==> SpawnShape(r.value) == Find(list, SpawnShapeTag).value
  {
    match Find(list, SpawnShapeTag)
    case Some(SpawnShape(s)) => Some(s)
    case _ => None
  }

  /** The cached `spawnBurst` config: the first `spawnBurst` entry's start and spacing. */
  function BurstOf(list: seq<Behavior>): (r: Option<Burst>)
    ensures r.Some? <==> Find(list, SpawnBurstTag).Some?
    ensures r.Some? ==> SpawnBurst(r.value.start, r.value.spacing) == Find(list, SpawnBurstTag).value
  {
    match Find(list, SpawnBurstTag)
    case Some(SpawnBurst(start, spacing)) => Some(Burst(start, spacing))
    case _ => None
  }

  /**
   * `emitter_life`: infinite when the lifetime is omitted or exactly -1, otherwise the
   * lifetime floored at 0 (so any other negative lifetime ends emission at once).
   */
  function EmitterLifeOf(lifetime: Option<real>): (r: Ext)
    ensures r.Infinite? <==> lifetime.None? || lifetime.value == -1.0
    ensures r.Finite? ==> r.v >= 0.0 && (lifetime.value >= 0.0 ==> r.v == lifetime.value)
    ensures r.Finite? && lifetime.value < 0.0 ==> r.v == 0.0
  {
    if lifetime.None? || lifetime.value == -1.0 then Infinite else Finite(Max(0.0, lifetime.value))
  }

  /** `Math.max(0.0001, frequency)`: seconds between waves, never below 0.0001. */
  function FrequencyOf(frequency: real): (r: real)
    ensures r >= 0.0001 && r >= frequency
    ensures frequency >= 0.0001 ==> r == frequency
  {
    Max(0.0001, frequency)
  }

  /** The tick length in seconds: `delta_time * 0.0166`. */
  function Seconds(deltaTime: real): real {
    deltaTime * 0.0166
  }

  // ---------------------------------------------------------------------------------------
  // The spawn loop

  /** The spawn timer, active count and number of waves when the spawn loop stops. */
  datatype SpawnRun = SpawnRun(timer: real, count: nat, waves: nat)

  /** Real division by a positive number has one solution. */
  lemma DivUnique(a: real, f: real, q: real)
    requires f > 0.0 && q * f == a
    ensures a / f == q
  {
    var d := a / f;
    assert d * f == a;
    assert (d - q) * f == 0.0;
  }

  /** One period less leaves one fewer whole period in the timer. */
  lemma PeriodStep(timer: real, freq: real)
    requires freq > 0.0 && timer >= freq
    ensures (timer / freq).Floor >= 1
    ensures ((timer - freq) / freq).Floor == (timer / freq).Floor - 1
  {
    var x := timer / freq;
    assert x * freq == timer;
    assert (x - 1.0) * freq == timer - freq;
    DivUnique(timer - freq, freq, x - 1.0);
    assert x >= 1.0;
  }

  /**
   * The spawn loop of `update`, from timer `timer` and `count` active particles: while the
   * emitter is `open` (emitting and younger than its lifetime), the timer holds a whole
   * period and the count is below the cap, one wave of `ppw` particles starts and the timer
   * loses one period. The cap is checked before a wave, not during it.
   */
  function Spawning(timer: real, freq: real, count: nat, ppw: nat, max: real, open: bool): SpawnRun
    requires freq > 0.0
    decreases if timer < freq then 0 else (timer / freq).Floor
  {
    if open && timer >= freq && (count as real) < max then
      PeriodStep(timer, freq);
      var next := Spawning(timer - freq, freq, count + ppw, ppw, max, open);
      next.(waves := next.waves + 1)
    else
      SpawnRun(timer, count, 0)
  }

  /**
   * Each wave takes one period off the timer and adds `ppw` particles; after at least one
   * wave the timer is not negative.
   */
  lemma SpawnAccounting(timer: real, freq: real, count: nat, ppw: nat, max: real, open: bool)
    requires freq > 0.0
    ensures var r := Spawning(timer, freq, count, ppw, max, open);
      r.timer == timer - (r.waves as real) * freq &&
      r.count == count + r.waves * ppw &&
      (r.waves > 0 ==> r.timer >= 0.0)
  {
    SpawnTimer(timer, freq, count, ppw, max, open);
    SpawnCount(timer, freq, count, ppw, max, open);
    SpawnTimerNonNegative(timer, freq, count, ppw, max, open);
  }

  /** `n` periods of length `f`, added up one at a time. */
  function Periods(n: nat, f: real): (t: real)
    ensures t == (n as real) * f
  {
    if n == 0 then 0.0 else Periods(n - 1, f) + f
  }

  /** `n` waves of `ppw` particles, added up one at a time. */
  function Waves(n: nat, ppw: nat): (c: nat)
    ensures c == n * ppw
  {
    if n == 0 then 0 else Waves(n - 1, ppw) + ppw
  }

  lemma {:induction false} SpawnTimer(timer: real, freq: real, count: nat, ppw: nat, max: real, open: bool)
    requires freq > 0.0
    ensures var r := Spawning(timer, freq, count, ppw, max, open);
      r.timer == timer - Periods(r.waves, freq)
    decreases if timer < freq then 0 else (timer / freq).Floor
  {
    if open && timer >= freq && (count as real) < max {
      PeriodStep(timer, freq);
      SpawnTimer(timer - freq, freq, count + ppw, ppw, max, open);
    }
  }

  lemma {:induction false} SpawnCount(timer: real, freq: real, count: nat, ppw: nat, max: real, open: bool)
    requires freq > 0.0
    ensures var r := Spawning(timer, freq, count, ppw, max, open);
      r.count == count + Waves(r.waves, ppw)
    decreases if timer < freq then 0 else (timer / freq).Floor
  {
    if open && timer >= freq && (count as real) < max {
      PeriodStep(timer, freq);
      SpawnCount(timer - freq, freq, count + ppw, ppw, max, open);
    }
  }

  lemma {:induction false} SpawnTimerNonNegative(timer: real, freq: real, count: nat, ppw: nat, max: real, open: bool)
    requires freq > 0.0
    ensures var r := Spawning(timer, freq, count, ppw, max, open);
      r.waves > 0 ==> r.timer >= 0.0
    decreases if timer < freq then 0 else (timer / freq).Floor
  {
    if open && timer >= freq && (count as real) < max {
      PeriodStep(timer, freq);
      SpawnTimerNonNegative(timer - freq, freq, count + ppw, ppw, max, open);
    }
  }

  /** The loop terminates after at most `floor(timer / frequency)` waves. */
  lemma SpawnWaveBound(timer: real, freq: real, count: nat, ppw: nat, max: real, open: bool)
    requires freq > 0.0
    ensures var r := Spawning(timer, freq, count, ppw, max, open);
      r.waves > 0 ==> r.waves <= (timer / freq).Floor
  {
    var r := Spawning(timer, freq, count, ppw, max, open);
    SpawnAccounting(timer, freq, count, ppw, max, open);
    if r.waves > 0 {
      var w := r.waves as real;
      var x := timer / freq;
      assert x * freq == timer;
      assert w * freq <= timer;
      assert w <= x;
    }
  }

  /**
   * When the loop stops while the emitter is open and the count is below the cap, the
   * timer holds less than one period.
   */
  lemma {:induction false} SpawnExit(timer: real, freq: real, count: nat, ppw: nat, max: real, open: bool)
    requires freq > 0.0
    ensures var r := Spawning(timer, freq, count, ppw, max, open);
      open && (r.count as real) < max ==> r.timer < freq
    decreases if timer < freq then 0 else (timer / freq).Floor
  {
    if open && timer >= freq && (count as real) < max {
      PeriodStep(timer, freq);
      SpawnExit(timer - freq, freq, count + ppw, ppw, max, open);
    }
  }

  /**
   * The cap bounds the count only loosely: a wave starts below `max` and adds `ppw`, so the
   * count stays below `max + ppw` (that is, at most `max - 1 + ppw` for a whole cap).
   */
  lemma {:induction false} SpawnCap(timer: real, freq: real, count: nat, ppw: nat, max: real, open: bool)
    requires freq > 0.0
    requires (count as real) < max + (ppw as real)
    ensures (Spawning(timer, freq, count, ppw, max, open).count as real) < max + (ppw as real)
    decreases if timer < freq then 0 else (timer / freq).Floor
  {
    if open && timer >= freq && (count as real) < max {
      PeriodStep(timer, freq);
      SpawnCap(timer - freq, freq, count + ppw, ppw, max, open);
    }
  }

  /**
   * The cap can be exceeded, and `SpawnCap`'s bound is reached: one period with
   * `max - 1` active particles spawns a whole wave, ending at `max - 1 + ppw`, more than
   * the cap whenever waves hold more than one particle.
   */
  lemma SpawnOvershoots(freq: real, max: nat, ppw: nat)
    requires freq > 0.0 && max >= 1
    ensures Spawning(freq, freq, max - 1, ppw, max as real, true) == SpawnRun(0.0, max - 1 + ppw, 1)
    ensures ppw > 1 ==> Spawning(freq, freq, max - 1, ppw, max as real, true).count > max
  {
    assert Spawning(0.0, freq, max - 1 + ppw, ppw, max as real, true) == SpawnRun(0.0, max - 1 + ppw, 0);
  }

  // ---------------------------------------------------------------------------------------
  // Where a wave puts its particles

  /** The position `spawn_wave` gives a particle, and the angle it seeds the direction from, if any. */
  datatype Placement = Placement(pos: Point, angle: Option<real>)

  /**
   * The squared torus radius: uniform in area between the smaller radius (floored at 0) and
   * the larger, that is `u * (r1^2 - r0^2) + r0^2`, written as the lerp between the squares.
   */
  function TorusArea(innerRadius: real, radius: real, u: Unit): real {
    var r0 := Max(0.0, Min(innerRadius, radius));
    var r1 := Max(innerRadius, radius);
    Lerp(r0 * r0, r1 * r1, u)
  }

  function TorusRadius(innerRadius: real, radius: real, u: Unit, fns: MathFns): real {
    fns.sqrt(TorusArea(innerRadius, radius, u))
  }

  /** `Math.random() * Math.PI * 2`. */
  function DrawnAngle(u: Unit): real {
    u * PI * 2.0
  }

  /** The burst angle of the `i`-th particle of a wave; a zero spacing draws the angle instead. */
  function BurstAngle(b: Burst, i: nat, u: Unit): real {
    if b.spacing == 0.0 then DrawnAngle(u) else ToRadians(b.start) + ToRadians(b.spacing) * (i as real)
  }

  /** A point of the rectangle `(x, y, w, h)` offset by `origin`, picked by two draws. */
  function RectSpot(origin: Point, x: real, y: real, w: real, h: real, u1: Unit, u2: Unit): Point {
    Point(origin.x + x + u1 * w, origin.y + y + u2 * h)
  }

  /** The point at `rad` along `angle` from `centre`. */
  function PolarSpot(centre: Point, angle: real, rad: real, fns: MathFns): Point {
    Point(centre.x + fns.cos(angle) * rad, centre.y + fns.sin(angle) * rad)
  }

  /** The point at unit distance along `angle` from `origin`. */
  function RingSpot(origin: Point, angle: real, fns: MathFns): Point {
    Point(origin.x + fns.cos(angle), origin.y + fns.sin(angle))
  }

  /** How many draws placing one particle takes. */
  function PlacementDraws(shape: Option<ShapeConfig>, burst: Option<Burst>): nat {
    if shape.Some? then 2
    else if burst.Some? && burst.value.spacing == 0.0 then 1
    else 0
  }

  /**
   * The placement of the `i`-th particle of a wave around `origin`, with draws `draw(n)`, ...:
   * a shape wins over a burst, and with neither the particle starts at the origin.
   */
  function PlacementOf(shape: Option<ShapeConfig>, burst: Option<Burst>, origin: Point, i: nat,
                       draw: nat -> Unit, n: nat, fns: MathFns): Placement
  {
    match shape
    case Some(RectShape(x, y, w, h)) => Placement(RectSpot(origin, x, y, w, h, draw(n), draw(n + 1)), None)
    case Some(TorusShape(cx, cy, radius, innerRadius, affectRotation)) =>
      var angle := DrawnAngle(draw(n));
      Placement(PolarSpot(Point(origin.x + cx, origin.y + cy), angle, TorusRadius(innerRadius, radius, draw(n + 1), fns), fns),
        if affectRotation then Some(angle) else None)
    case None =>
      match burst
      case Some(b) =>
        var angle := BurstAngle(b, i, draw(n));
        Placement(RingSpot(origin, angle, fns), Some(angle))
      case None => Placement(origin, None)
  }

  /** A particle after `update_spawn_pos` and, when there is an angle, `seed_direction_from_angle`. */
  function Placed(k: Kin, p: Placement, fns: MathFns): Kin {
    var moved := k.(pos := p.pos);
    match p.angle
    case None => moved
    case Some(a) =>
      moved.(direction := VecFromAngle(a, 1.0, fns), rotation := if k.rotateToVelocity then a else k.rotation)
  }

  /** `p` stands where `PlacementOf` puts the `i`-th particle of a wave, facing along its angle if it has one. */
  ghost predicate PlacedAt(p: Particle, shape: Option<ShapeConfig>, burst: Option<Burst>, origin: Point, i: nat,
                           draw: nat -> Unit, n: nat, fns: MathFns)
    reads p
  {
    var pl := PlacementOf(shape, burst, origin, i, draw, n, fns);
    p.pos == pl.pos && (pl.angle.Some? ==> p.direction == VecFromAngle(pl.angle.value, 1.0, fns))
  }

  lemma SquareMono(x: real, y: real)
    requires 0.0 <= x <= y
    ensures x * x <= y * y
  {
    assert x * x <= x * y;
    assert x * y <= y * y;
  }

  lemma SquareNonNegative(x: real)
    ensures 0.0 <= x * x
  {
    if x < 0.0 {
      SquareMono(0.0, -x);
      assert (-x) * (-x) == x * x;
    } else {
      SquareMono(0.0, x);
    }
  }

  /** The larger radius squared is at least the smaller one (floored at 0) squared. */
  lemma TorusAreaBounds(innerRadius: real, radius: real, u: Unit)
    ensures var r0 := Max(0.0, Min(innerRadius, radius));
      var r1 := Max(innerRadius, radius);
      r0 * r0 <= TorusArea(innerRadius, radius, u) <= r1 * r1
  {
    var r0 := Max(0.0, Min(innerRadius, radius));
    var r1 := Max(innerRadius, radius);
    if r1 >= 0.0 {
      SquareMono(r0, r1);
    } else {
      SquareNonNegative(r1);
      assert r0 == 0.0;
    }
    LerpBetween(r0 * r0, r1 * r1, u);
  }

  /** A torus sample lies between the two radii: `r0^2 <= rad^2 <= r1^2`. */
  lemma TorusRadiusBounds(innerRadius: real, radius: real, u: Unit, fns: MathFns)
    requires SqrtLaw(fns)
    ensures var r0 := Max(0.0, Min(innerRadius, radius));
      var r1 := Max(innerRadius, radius);
      var rad := TorusRadius(innerRadius, radius, u, fns);
      rad >= 0.0 && r0 * r0 <= rad * rad <= r1 * r1
  {
    var area := TorusArea(innerRadius, radius, u);
    TorusAreaBounds(innerRadius, radius, u);
    assert 0.0 <= area;
    assert fns.sqrt(area) * fns.sqrt(area) == area;
  }

  /** With `cos^2 + sin^2 = 1`, the point at `rad` along an angle is at squared distance `rad^2`. */
  lemma PolarDistance(centre: Point, angle: real, rad: real, fns: MathFns)
    requires PythagoreanLaw(fns)
    ensures DistanceSquare(centre, PolarSpot(centre, angle, rad, fns)) == rad * rad
  {
    var c := fns.cos(angle);
    var s := fns.sin(angle);
    assert c * c + s * s == 1.0;
    var p := PolarSpot(centre, angle, rad, fns);
    assert centre.x - p.x == -(c * rad);
    assert centre.y - p.y == -(s * rad);
    assert (c * rad) * (c * rad) + (s * rad) * (s * rad) == (c * c + s * s) * (rad * rad);
  }

  /**
   * A torus sample lies on the circle of radius `rad` around the torus centre, between the
   * two radii; its direction follows the angle only when `affect_rotation` is set.
   */
  lemma TorusPlacement(t: ShapeConfig, burst: Option<Burst>, origin: Point, i: nat, draw: nat -> Unit, n: nat, fns: MathFns)
    requires t.TorusShape? && PythagoreanLaw(fns) && SqrtLaw(fns)
    ensures var rad := TorusRadius(t.innerRadius, t.radius, draw(n + 1), fns);
      var p := PlacementOf(Some(t), burst, origin, i, draw, n, fns);
      DistanceSquare(Point(origin.x + t.cx, origin.y + t.cy), p.pos) == rad * rad &&
      Max(0.0, Min(t.innerRadius, t.radius)) * Max(0.0, Min(t.innerRadius, t.radius)) <= rad * rad <=
        Max(t.innerRadius, t.radius) * Max(t.innerRadius, t.radius) &&
      (p.angle.Some? <==> t.affectRotation)
  {
    var rad := TorusRadius(t.innerRadius, t.radius, draw(n + 1), fns);
    PolarDistance(Point(origin.x + t.cx, origin.y + t.cy), DrawnAngle(draw(n)), rad, fns);
    TorusRadiusBounds(t.innerRadius, t.radius, draw(n + 1), fns);
  }

  /**
   * A burst puts the `i`-th particle of each wave at unit distance from the origin, at angle
   * `to_radians(start) + to_radians(spacing) * i` when the spacing is not zero, and seeds
   * its direction from that angle.
   */
  lemma BurstOnUnitCircle(b: Burst, origin: Point, i: nat, draw: nat -> Unit, n: nat, fns: MathFns)
    requires PythagoreanLaw(fns)
    ensures var p := PlacementOf(None, Some(b), origin, i, draw, n, fns);
      DistanceSquare(origin, p.pos) == 1.0 &&
      p.angle == Some(BurstAngle(b, i, draw(n))) &&
      (b.spacing != 0.0 ==> p.angle.value == ToRadians(b.start) + ToRadians(b.spacing) * (i as real))
  {
    var angle := BurstAngle(b, i, draw(n));
    PolarDistance(origin, angle, 1.0, fns);
    assert PolarSpot(origin, angle, 1.0, fns) == RingSpot(origin, angle, fns);
  }

  /**
   * A particle a burst has placed stands at unit distance from the origin and faces along
   * its burst angle, `to_radians(start) + to_radians(spacing) * i` when the spacing is not zero.
   */
  lemma BurstPlaced(p: Particle, b: Burst, origin: Point, i: nat, draw: nat -> Unit, n: nat, fns: MathFns)
    requires PythagoreanLaw(fns) && PlacedAt(p, None, Some(b), origin, i, draw, n, fns)
    ensures DistanceSquare(origin, p.pos) == 1.0
    ensures p.direction == VecFromAngle(BurstAngle(b, i, draw(n)), 1.0, fns)
    ensures b.spacing != 0.0 ==>
      p.direction == VecFromAngle(ToRadians(b.start) + ToRadians(b.spacing) * (i as real), 1.0, fns)
  {
    BurstOnUnitCircle(b, origin, i, draw, n, fns);
  }

  /** A rectangle sample lies in the rectangle offset by the origin (for non-negative sizes). */
  lemma RectInside(origin: Point, x: real, y: real, w: real, h: real, u1: Unit, u2: Unit)
    requires w >= 0.0 && h >= 0.0
    ensures var p := RectSpot(origin, x, y, w, h, u1, u2);
      origin.x + x <= p.x <= origin.x + x + w && origin.y + y <= p.y <= origin.y + y + h
  {
    MulMono(w, u1);
    MulMono(h, u2);
    assert w * u1 == u1 * w;
    assert h * u2 == u2 * h;
  }

  // ---------------------------------------------------------------------------------------
  // Culling

  /** Whether each particle is alive after ageing by `delta`: `age + delta < life`. */
  function KeepFlags(ps: seq<Particle>, delta: real): (r: seq<bool>)
    reads set p | p in ps
    ensures |r| == |ps|
    ensures forall j :: 0 <= j < |ps| ==> (r[j] <==> ps[j].age + delta < ps[j].life)
  {
    if ps == [] then [] else [ps[0].age + delta < ps[0].life] + KeepFlags(ps[1..], delta)
  }

  /** The particles whose flag is set, in their order. */
  function Kept(ps: seq<Particle>, keep: seq<bool>): (r: seq<Particle>)
    requires |keep| == |ps|
    ensures |r| <= |ps|
    ensures forall j :: 0 <= j < |r| ==> r[j] in ps
    ensures forall j :: 0 <= j < |ps| && keep[j] ==> ps[j] in r
  {
    if ps == [] then [] else (if keep[0] then [ps[0]] else []) + Kept(ps[1..], keep[1..])
  }

  /** The particles whose flag is clear, from the back of the list to the front. */
  function Dropped(ps: seq<Particle>, keep: seq<bool>): (r: seq<Particle>)
    requires |keep| == |ps|
    ensures forall j :: 0 <= j < |r| ==> r[j] in ps
    ensures forall j :: 0 <= j < |ps| && !keep[j] ==> ps[j] in r
  {
    if ps == [] then [] else Dropped(ps[1..], keep[1..]) + (if keep[0] then [] else [ps[0]])
  }

  /** Every particle is either kept or dropped, and never both when the list has no repeats. */
  lemma {:induction false} KeptDroppedPartition(ps: seq<Particle>, keep: seq<bool>)
    requires |keep| == |ps| && Distinct(ps)
    ensures |Kept(ps, keep)| + |Dropped(ps, keep)| == |ps|
    ensures Distinct(Kept(ps, keep)) && Distinct(Dropped(ps, keep))
    ensures forall p :: p in Kept(ps, keep) ==> p !in Dropped(ps, keep)
  {
    if ps != [] {
      KeptDroppedPartition(ps[1..], keep[1..]);
      assert ps[0] !in ps[1..];
    }
  }

  /** The particles `draw` draws, back to front: the live ones that have a texture or animation. */
  function DrawOrder(ps: seq<Particle>): (r: seq<Particle>)
    reads set p | p in ps
    ensures |r| <= |ps|
    ensures forall j :: 0 <= j < |r| ==> r[j] in ps && r[j].IsAlive() && HasTexture(r[j].look)
  {
    if ps == [] then []
    else DrawOrder(ps[1..]) + (if ps[0].IsAlive() && HasTexture(ps[0].look) then [ps[0]] else [])
  }

  class ParticleEmitter {
    const config: EmitterConfig
    const pool: PoolBag<Particle>
    const particlesPerWave: nat
    const maxParticles: real
    const frequency: real
    const emitterLife: Ext
    const burst: Option<Burst>
    const shape: Option<ShapeConfig>
    var pos: Point
    var particles: seq<Particle>
    var emitterAge: real
    var spawnTimer: real
    var emit: bool
    /** Whether an animation-complete callback is set. */
    var hasCallback: bool
    /** How often the callback has run. */
    var completions: nat
    var completed: bool

    /**
     * The pool and the active list hold different particles, each at most once, all made
     * from this emitter's config.
     */
    predicate Valid()
      reads this, pool
    {
      pool.Valid() && Distinct(particles) && frequency > 0.0 &&
      (forall p :: p in particles ==> p !in pool.items && p.config == config) &&
      (forall p :: p in pool.items ==> p.config == config)
    }

    /** The constructor fills in the defaults and caches the shape and burst configs. */
    constructor (config: EmitterConfig)
      ensures Valid() && this.config == config && fresh(pool)
      ensures particlesPerWave == if config.particlesPerWave.Some? then config.particlesPerWave.value else 1
      ensures maxParticles == if config.maxParticles.Some? then config.maxParticles.value else 20.0
      ensures frequency == FrequencyOf(config.frequency) && emitterLife == EmitterLifeOf(config.emitterLifetime)
      ensures emit == if config.emit.Some? then config.emit.value else true
      ensures shape == ShapeOf(config.behaviors) && burst == BurstOf(config.behaviors)
      ensures pos == config.pos && particles == [] && pool.items == [] && pool.log == []
      ensures spawnTimer == 0.0 && emitterAge == 0.0 && !completed && !hasCallback && completions == 0
    {
      this.config := config;
      spawnTimer := 0.0;
      particlesPerWave := if config.particlesPerWave.Some? then config.particlesPerWave.value else 1;
      maxParticles := if config.maxParticles.Some? then config.maxParticles.value else 20.0;
      frequency := FrequencyOf(config.frequency);
      pos := config.pos;
      emitterAge := 0.0;
      emitterLife := EmitterLifeOf(config.emitterLifetime);
      emit := if config.emit.Some? then config.emit.value else true;
      burst := BurstOf(config.behaviors);
      shape := ShapeOf(config.behaviors);
      pool := new PoolBag();
      particles := [];
      hasCallback := false;
      completions := 0;
      completed := false;
    }

    /** `dispose`: empties the pool and the active list, stops emitting and drops the callback. */
    method Dispose()
      requires Valid()
      modifies this, pool
      ensures Valid() && particles == [] && pool.items == [] && !emit && !hasCallback
      ensures pos == old(pos) && spawnTimer == old(spawnTimer) && emitterAge == old(emitterAge)
      ensures completed == old(completed) && completions == old(completions)
    {
      pool.Dispose();
      particles := [];
      emit := false;
      hasCallback := false;
    }

    /** `set_emit`. */
    method SetEmit(value: bool)
      modifies this
      ensures emit == value && particles == old(particles) && completed == old(completed)
      ensures spawnTimer == old(spawnTimer) && emitterAge == old(emitterAge) && pos == old(pos)
      ensures hasCallback == old(hasCallback) && completions == old(completions)
    {
      if emit != value {
        emit := value;
      }
    }

    /** `set_on_animation_complete`. */
    method SetOnAnimationComplete()
      modifies this
      ensures hasCallback && emit == old(emit) && particles == old(particles) && completed == old(completed)
      ensures spawnTimer == old(spawnTimer) && emitterAge == old(emitterAge) && pos == old(pos)
      ensures completions == old(completions)
    {
      hasCallback := true;
    }

    /** `update_spawn_pos`: moves the emitter and restarts it; active particles stay as they are. */
    method UpdateSpawnPos(x: real, y: real)
      modifies this
      ensures pos == Point(x, y) && spawnTimer == 0.0 && emitterAge == 0.0 && !completed
      ensures particles == old(particles) && emit == old(emit)
      ensures hasCallback == old(hasCallback) && completions == old(completions)
    {
      pos := Point(x, y);
      spawnTimer := 0.0;
      emitterAge := 0.0;
      completed := false;
    }

    /** `draw`: nothing once completed; otherwise the drawable particles, back to front. */
    method Draw() returns (shown: seq<Particle>)
      ensures completed ==> shown == []
      ensures !completed ==> shown == DrawOrder(particles)
    {
      shown := [];
      if completed {
        return;
      }
      var i := |particles|;
      while i > 0
        invariant 0 <= i <= |particles|
        invariant shown == DrawOrder(particles[i..])
      {
        i := i - 1;
        assert particles[i..][1..] == particles[i + 1..];
        if particles[i].IsAlive() && HasTexture(particles[i].look) {
          shown := shown + [particles[i]];
        }
      }
    }

    /**
     * `update(delta_time)`: nothing once completed. Otherwise the timer gains the tick, the
     * spawn loop runs as `Spawning` says, appending to the active list (`spawned`) particles
     * taken from the front of the pool or newly made, the emitter ages, and the cull loop
     * keeps, in order, exactly the particles still alive after ageing by the tick (`keep`,
     * judged on their `ages` and `lives` after spawning) and releases the rest, reset, to
     * the pool left after spawning (`pooled`). The emitter completes (running the callback,
     * if set) when it no longer emits or has outlived its lifetime and no particle is left.
     * Creating a particle throws when a random texture or animation list is empty.
     */
    method Update(deltaTime: real, rng: Random, fns: MathFns)
      returns (r: Outcome, ghost spawned: seq<Particle>, ghost keep: seq<bool>, ghost ages: seq<real>,
               ghost lives: seq<real>, ghost pooled: seq<Particle>)
      requires Valid()
      modifies this, pool, rng, set p | p in particles, set p | p in pool.items
      ensures Valid()
      ensures old(completed) ==> r == Pass && unchanged(this) && pool.items == old(pool.items)
      ensures r.Fail? ==> !Resolvable(config.behaviors)
      ensures emit == old(emit) && pos == old(pos) && hasCallback == old(hasCallback)
      ensures !old(completed) && r.Pass? ==>
        var delta := Seconds(deltaTime);
        var run := Spawning(old(spawnTimer) + delta, frequency, |old(particles)|, particlesPerWave, maxParticles,
          old(emit) && Below(old(emitterAge), emitterLife));
        spawnTimer == run.timer && emitterAge == old(emitterAge) + delta && |particles| <= run.count &&
        (forall p :: p in particles ==> p.IsAlive()) &&
        (completed <==> (!emit || !Below(emitterAge, emitterLife)) && particles == []) &&
        completions == old(completions) + (if completed && hasCallback then 1 else 0)
      ensures !old(completed) && r.Pass? ==>
        var delta := Seconds(deltaTime);
        var n0 := |old(particles)|;
        n0 <= |spawned| && spawned[..n0] == old(particles) &&
        (forall j :: n0 <= j < |spawned| ==> spawned[j] in old(pool.items) || fresh(spawned[j])) &&
        |keep| == |spawned| && |ages| == |spawned| && |lives| == |spawned| &&
        (forall j :: 0 <= j < n0 ==> ages[j] == old(particles[j].age) && lives[j] == old(particles[j].life)) &&
        (forall j :: 0 <= j < |spawned| ==> (keep[j] <==> ages[j] + delta < lives[j])) &&
        particles == Kept(spawned, keep) &&
        |pooled| <= |old(pool.items)| && pooled == old(pool.items)[|old(pool.items)| - |pooled|..] &&
        pool.items == pooled + Dropped(spawned, keep) &&
        (forall p :: p in Dropped(spawned, keep) ==> p.age == 0.0 && p.pos == config.pos)
      ensures !old(completed) && old(emit) && emitterLife.Infinite? ==> !completed
    {
      spawned, keep, ages, lives, pooled := [], [], [], [], [];
      if completed {
        r := Pass;
        return;
      }
      r, spawned, keep, ages, lives, pooled := Advance(Seconds(deltaTime), rng, fns);
      if r.Fail? {
        return;
      }
      if !completed && (!emit || !Below(emitterAge, emitterLife)) && |particles| == 0 {
        completed := true;
        if hasCallback {
          completions := completions + 1;
        }
      }
    }

    /** The body of `update` before the completion check: spawning, ageing and culling. */
    method Advance(delta: real, rng: Random, fns: MathFns)
      returns (r: Outcome, ghost spawned: seq<Particle>, ghost keep: seq<bool>, ghost ages: seq<real>,
               ghost lives: seq<real>, ghost pooled: seq<Particle>)
      requires Valid()
      modifies this, pool, rng, set p | p in particles, set p | p in pool.items
      ensures Valid()
      ensures r.Fail? ==> !Resolvable(config.behaviors)
      ensures emit == old(emit) && pos == old(pos) && hasCallback == old(hasCallback)
      ensures completed == old(completed) && completions == old(completions)
      ensures r.Pass? ==>
        var run := Spawning(old(spawnTimer) + delta, frequency, |old(particles)|, particlesPerWave, maxParticles,
          old(emit) && Below(old(emitterAge), emitterLife));
        spawnTimer == run.timer && emitterAge == old(emitterAge) + delta && |spawned| == run.count
      ensures r.Pass? ==>
        var n0 := |old(particles)|;
        n0 <= |spawned| && spawned[..n0] == old(particles) &&
        (forall j :: n0 <= j < |spawned| ==> spawned[j] in old(pool.items) || fresh(spawned[j])) &&
        |keep| == |spawned| && |ages| == |spawned| && |lives| == |spawned| &&
        (forall j :: 0 <= j < n0 ==> ages[j] == old(particles[j].age) && lives[j] == old(particles[j].life)) &&
        (forall j :: 0 <= j < |spawned| ==> (keep[j] <==> ages[j] + delta < lives[j])) &&
        |pooled| <= |old(pool.items)| && pooled == old(pool.items)[|old(pool.items)| - |pooled|..]
      ensures r.Pass? ==>
        particles == Kept(spawned, keep) && pool.items == pooled + Dropped(spawned, keep) &&
        (forall p :: p in particles ==> p.IsAlive()) &&
        (forall p :: p in Dropped(spawned, keep) ==> p.age == 0.0 && p.pos == config.pos)
    {
      keep := [];
      r, spawned, ages, lives, pooled := Spawn(delta, rng, fns);
      if r.Fail? {
        return;
      }
      keep := KeepFlags(particles, delta);
      Cull(delta, rng, fns);
    }

    /**
     * The first half of `update`: the timer gains the tick, the spawn loop runs and the
     * emitter ages. `ages` and `lives` record the active particles' ages and lifetimes then.
     */
    method Spawn(delta: real, rng: Random, fns: MathFns)
      returns (r: Outcome, ghost spawned: seq<Particle>, ghost ages: seq<real>, ghost lives: seq<real>,
               ghost pooled: seq<Particle>)
      requires Valid()
      modifies this, pool, rng, set p | p in pool.items
      ensures Valid()
      ensures r.Fail? ==> !Resolvable(config.behaviors)
      ensures emit == old(emit) && pos == old(pos) && hasCallback == old(hasCallback)
      ensures completed == old(completed) && completions == old(completions)
      ensures r.Pass? ==>
        var run := Spawning(old(spawnTimer) + delta, frequency, |old(particles)|, particlesPerWave, maxParticles,
          old(emit) && Below(old(emitterAge), emitterLife));
        spawnTimer == run.timer && emitterAge == old(emitterAge) + delta && |spawned| == run.count
      ensures r.Pass? ==>
        var n0 := |old(particles)|;
        particles == spawned && pool.items == pooled &&
        n0 <= |spawned| && spawned[..n0] == old(particles) &&
        (forall j :: n0 <= j < |spawned| ==> spawned[j] in old(pool.items) || fresh(spawned[j])) &&
        |ages| == |spawned| && |lives| == |spawned| &&
        (forall j :: 0 <= j < |spawned| ==> ages[j] == spawned[j].age && lives[j] == spawned[j].life) &&
        (forall j :: 0 <= j < n0 ==> ages[j] == old(particles[j].age) && lives[j] == old(particles[j].life)) &&
        |pooled| <= |old(pool.items)| && pooled == old(pool.items)[|old(pool.items)| - |pooled|..]
    {
      spawned, ages, lives, pooled := [], [], [], [];
      spawnTimer := spawnTimer + delta;
      r := SpawnWaves(rng, fns);
      if r.Fail? {
        return;
      }
      emitterAge := emitterAge + delta;
      spawned, pooled := particles, pool.items;
      ages := seq(|spawned|, j requires 0 <= j < |spawned| reads spawned => spawned[j].age);
      lives := seq(|spawned|, j requires 0 <= j < |spawned| reads spawned => spawned[j].life);
      forall j | old(|particles|) <= j < |spawned|
        ensures spawned[j] in old(pool.items) || fresh(spawned[j])
      {
        assert spawned[j] !in spawned[..old(|particles|)] by {
          assert Distinct(spawned);
        }
      }
    }

    /** The spawn loop of `update`. */
    method SpawnWaves(rng: Random, fns: MathFns) returns (r: Outcome)
      requires Valid()
      modifies this, pool, rng, set p | p in pool.items
      ensures Valid()
      ensures emit == old(emit) && pos == old(pos) && hasCallback == old(hasCallback)
      ensures emitterAge == old(emitterAge) && completed == old(completed) && completions == old(completions)
      ensures r.Fail? ==> !Resolvable(config.behaviors)
      ensures r.Pass? ==>
        var run := Spawning(old(spawnTimer), frequency, |old(particles)|, particlesPerWave, maxParticles,
          emit && Below(emitterAge, emitterLife));
        spawnTimer == run.timer && |particles| == run.count
      ensures r.Pass? ==> Grown(old(particles), particles, old(pool.items), pool.items)
      ensures forall p :: p in particles ==> p in old(particles) || p in old(pool.items) || fresh(p)
      ensures forall p :: p in pool.items ==> p in old(pool.items)
    {
      var open := emit && Below(emitterAge, emitterLife);
      ghost var run := Spawning(spawnTimer, frequency, |particles|, particlesPerWave, maxParticles, open);
      while emit && spawnTimer >= frequency && (|particles| as real) < maxParticles && Below(emitterAge, emitterLife)
        invariant Valid()
        invariant emit == old(emit) && pos == old(pos) && hasCallback == old(hasCallback)
        invariant emitterAge == old(emitterAge) && completed == old(completed) && completions == old(completions)
        invariant var now := Spawning(spawnTimer, frequency, |particles|, particlesPerWave, maxParticles, open);
          now.timer == run.timer && now.count == run.count
        invariant Grown(old(particles), particles, old(pool.items), pool.items)
        invariant forall p :: p in particles ==> p in old(particles) || p in old(pool.items) || fresh(p)
        invariant forall p :: p in pool.items ==> p in old(pool.items)
        decreases Spawning(spawnTimer, frequency, |particles|, particlesPerWave, maxParticles, open).waves
      {
        ghost var before, pooled := particles, pool.items;
        ghost var offsets;
        r, offsets := SpawnWave(rng, fns);
        if r.Fail? {
          return;
        }
        GrownTwice(old(particles), before, particles, old(pool.items), pooled, pool.items);
        spawnTimer := spawnTimer - frequency;
      }
      r := Pass;
    }

    /**
     * `spawn_wave`: nothing when the active count has reached the cap; otherwise
     * `particles_per_wave` particles, taken from the pool oldest first and then newly made,
     * are placed and appended.
     */
    method SpawnWave(rng: Random, fns: MathFns) returns (r: Outcome, ghost offsets: seq<nat>)
      requires Valid()
      modifies this, pool, rng, set p | p in pool.items
      ensures Valid()
      ensures emit == old(emit) && pos == old(pos) && hasCallback == old(hasCallback) && spawnTimer == old(spawnTimer)
      ensures emitterAge == old(emitterAge) && completed == old(completed) && completions == old(completions)
      ensures r.Fail? ==> !Resolvable(config.behaviors)
      ensures !((|old(particles)| as real) < maxParticles) ==> r == Pass && particles == old(particles) && pool.items == old(pool.items)
      ensures r.Pass? && (|old(particles)| as real) < maxParticles ==>
        var n0 := |old(particles)|;
        var k := if particlesPerWave <= |old(pool.items)| then particlesPerWave else |old(pool.items)|;
        |particles| == n0 + particlesPerWave && particles[..n0] == old(particles) &&
        particles[n0..n0 + k] == old(pool.items)[..k] && pool.items == old(pool.items)[k..] &&
        (forall j :: n0 + k <= j < |particles| ==> fresh(particles[j]))
      ensures r.Pass? && (|old(particles)| as real) < maxParticles ==>
        |offsets| == particlesPerWave && WavePlaced(|old(particles)|, offsets, rng.stream, fns)
      ensures forall p :: p in particles ==> p in old(particles) || p in old(pool.items) || fresh(p)
      ensures forall p :: p in pool.items ==> p in old(pool.items)
    {
      offsets := [];
      if (|particles| as real) >= maxParticles {
        return Pass, offsets;
      }
      ghost var n0 := |particles|;
      ghost var items0 := pool.items;
      var i := 0;
      while i < particlesPerWave
        invariant 0 <= i <= particlesPerWave
        invariant Valid() && WaveProgress(old(particles), items0, i)
        invariant |offsets| == i && WavePlaced(n0, offsets, rng.stream, fns)
        invariant emit == old(emit) && pos == old(pos) && hasCallback == old(hasCallback) && spawnTimer == old(spawnTimer)
        invariant emitterAge == old(emitterAge) && completed == old(completed) && completions == old(completions)
        invariant forall j :: n0 + (if i <= |items0| then i else |items0|) <= j < |particles| ==> fresh(particles[j])
        invariant forall p :: p in particles ==> p in old(particles) || p in old(pool.items) || fresh(p)
        invariant forall p :: p in pool.items ==> p in old(pool.items)
      {
        r, offsets := WaveStep(i, old(particles), items0, offsets, rng, fns);
        if r.Fail? {
          return;
        }
        i := i + 1;
      }
      r := Pass;
    }

    /**
     * How far a wave has got after `i` of its particles: they follow the particles `ps0` of
     * before the wave, the first ones taken from the pool `items0` in order, the rest new.
     */
    ghost predicate WaveProgress(ps0: seq<Particle>, items0: seq<Particle>, i: nat)
      reads this, pool
    {
      var n0 := |ps0|;
      var k := if i <= |items0| then i else |items0|;
      |particles| == n0 + i && particles[..n0] == ps0 &&
      particles[n0..n0 + k] == items0[..k] && pool.items == items0[k..]
    }

    /**
     * The particles of a wave so far, from index `n0` of the active list on: the `j`-th is
     * placed for index `j` with the draws starting at `offsets[j]`.
     */
    ghost predicate WavePlaced(n0: nat, offsets: seq<nat>, draw: nat -> Unit, fns: MathFns)
      reads this, set p | p in particles
    {
      n0 + |offsets| <= |particles| &&
      forall j :: 0 <= j < |offsets| ==> PlacedAt(particles[n0 + j], shape, burst, pos, j, draw, offsets[j], fns)
    }

    /**
     * One turn of `spawn_wave`'s loop, in terms of the wave's progress: the new particle is
     * placed for index `i`, with the last draws taken, and the earlier ones stay put.
     */
    method WaveStep(i: nat, ghost ps0: seq<Particle>, ghost items0: seq<Particle>, ghost offsets: seq<nat>,
                    rng: Random, fns: MathFns)
      returns (r: Outcome, ghost offsets1: seq<nat>)
      requires Valid() && WaveProgress(ps0, items0, i)
      requires |offsets| == i && WavePlaced(|ps0|, offsets, rng.stream, fns)
      modifies this, pool, rng, set p | p in pool.items
      ensures Valid()
      ensures emit == old(emit) && pos == old(pos) && hasCallback == old(hasCallback) && spawnTimer == old(spawnTimer)
      ensures emitterAge == old(emitterAge) && completed == old(completed) && completions == old(completions)
      ensures r.Fail? ==> !Resolvable(config.behaviors)
      ensures r.Pass? ==> WaveProgress(ps0, items0, i + 1)
      ensures r.Pass? ==> particles[..|old(particles)|] == old(particles) && |particles| == |old(particles)| + 1
      ensures r.Pass? && i >= |items0| ==> fresh(particles[|particles| - 1])
      ensures r.Pass? ==>
        |offsets1| == i + 1 && offsets1[..i] == offsets && WavePlaced(|ps0|, offsets1, rng.stream, fns) &&
        rng.draws == offsets1[i] + PlacementDraws(shape, burst)
      ensures forall p :: p in particles ==> p in old(particles) || p in old(pool.items) || fresh(p)
      ensures forall p :: p in pool.items ==> p in old(pool.items)
    {
      ghost var before := particles;
      ghost var k := if i <= |items0| then i else |items0|;
      ghost var at;
      offsets1 := offsets;
      r, at := SpawnOne(i, rng, fns);
      if r.Fail? {
        return;
      }
      offsets1 := offsets + [at];
      forall j | 0 <= j < i
        ensures PlacedAt(particles[|ps0| + j], shape, burst, pos, j, rng.stream, offsets1[j], fns)
      {
        assert particles[|ps0| + j] == before[|ps0| + j];
        assert before[|ps0| + j] in old(particles);
      }
      SliceOfExtension(before, particles, |ps0|, |ps0| + k);
      if i < |items0| {
        assert items0[..k + 1] == items0[..k] + [items0[k]];
        assert items0[k..][1..] == items0[k + 1..];
      }
    }

    /**
     * One iteration of `spawn_wave`'s loop: the pool's oldest particle, or a new one when the
     * pool is empty, is placed as the `i`-th particle of the wave and appended.
     */
    method SpawnOne(i: nat, rng: Random, fns: MathFns) returns (r: Outcome, ghost at: nat)
      requires Valid()
      modifies this, pool, rng, set p | p in pool.items
      ensures Valid()
      ensures emit == old(emit) && pos == old(pos) && hasCallback == old(hasCallback) && spawnTimer == old(spawnTimer)
      ensures emitterAge == old(emitterAge) && completed == old(completed) && completions == old(completions)
      ensures r.Fail? ==> !Resolvable(config.behaviors) && old(pool.items) == [] && pool.items == [] && particles == old(particles)
      ensures r.Pass? ==> |particles| == |old(particles)| + 1 && particles[..|old(particles)|] == old(particles)
      ensures r.Pass? && old(pool.items) != [] ==>
        particles == old(particles) + [old(pool.items)[0]] && pool.items == old(pool.items)[1..]
      ensures r.Pass? && old(pool.items) == [] ==> fresh(particles[|old(particles)|]) && pool.items == []
      ensures r.Pass? ==>
        PlacedAt(particles[|old(particles)|], shape, burst, pos, i, rng.stream, at, fns) &&
        rng.draws == at + PlacementDraws(shape, burst)
    {
      at := rng.draws;
      var taken := Take(rng, fns);
      if taken.Failure? {
        return Fail(taken.error), at;
      }
      var p := taken.value;
      at := rng.draws;
      Place(p, i, rng, fns);
      particles := particles + [p];
      r := Pass;
      assert particles[|old(particles)|] == p;
    }

    /** `particles_pool_bag.get()`: the pool's oldest particle, or a new one from the factory when the pool is empty. */
    method Take(rng: Random, fns: MathFns) returns (r: Result<Particle>)
      requires Valid()
      modifies pool, rng
      ensures Valid()
      ensures r.Failure? ==> !Resolvable(config.behaviors) && old(pool.items) == [] && pool.items == []
      ensures r.Success? ==> r.value.config == config && r.value !in particles && r.value !in pool.items
      ensures r.Success? && old(pool.items) != [] ==> r.value == old(pool.items)[0] && pool.items == old(pool.items)[1..]
      ensures r.Success? && old(pool.items) == [] ==> fresh(r.value) && pool.items == []
    {
      if |pool.items| == 0 {
        var made := CreateParticle(config, rng, fns);
        if made.Failure? {
          return Failure(made.error);
        }
        var p := pool.Get(Some(made.value));
        r := Success(p);
      } else {
        var p := pool.Get(None);
        r := Success(p);
      }
    }

    /** Places the `i`-th particle of a wave as `PlacementOf` says. */
    method Place(p: Particle, i: nat, rng: Random, fns: MathFns)
      modifies p, rng
      ensures p.State() == Placed(old(p.State()), PlacementOf(shape, burst, pos, i, rng.stream, old(rng.draws), fns), fns)
      ensures p.drawn == old(p.drawn) && rng.draws == old(rng.draws) + PlacementDraws(shape, burst)
    {
      match shape {
        case Some(RectShape(x, y, w, h)) =>
          var u1 := rng.Next();
          var u2 := rng.Next();
          var at := RectSpot(pos, x, y, w, h, u1, u2);
          p.UpdateSpawnPos(at.x, at.y);
        case Some(TorusShape(cx, cy, radius, innerRadius, affectRotation)) =>
          var u1 := rng.Next();
          var angle := DrawnAngle(u1);
          var u2 := rng.Next();
          var at := PolarSpot(Point(pos.x + cx, pos.y + cy), angle, TorusRadius(innerRadius, radius, u2, fns), fns);
          p.UpdateSpawnPos(at.x, at.y);
          if affectRotation {
            p.SeedDirectionFromAngle(angle, fns);
          }
        case None =>
          match burst {
            case Some(b) =>
              var u: Unit := 0.0;
              if b.spacing == 0.0 {
                u := rng.Next();
              }
              var angle := BurstAngle(b, i, u);
              assert angle == BurstAngle(b, i, rng.stream(old(rng.draws)));
              var at := RingSpot(pos, angle, fns);
              p.UpdateSpawnPos(at.x, at.y);
              p.SeedDirectionFromAngle(angle, fns);
            case None =>
              p.UpdateSpawnPos(pos.x, pos.y);
          }
      }
    }

    /**
     * The cull loop of `update`, back to front: each particle is updated; a dead one is
     * spliced out, released to the pool and reset. The survivors keep their order and are
     * all alive; the pool gains the dead ones in the order they were met.
     */
    method Cull(delta: real, rng: Random, fns: MathFns)
      requires Valid()
      modifies this, pool, rng, set p | p in particles
      ensures Valid()
      ensures particles == Kept(old(particles), old(KeepFlags(particles, delta)))
      ensures pool.items == old(pool.items) + Dropped(old(particles), old(KeepFlags(particles, delta)))
      ensures forall p :: p in particles ==> p.IsAlive()
      ensures forall p :: p in Dropped(old(particles), old(KeepFlags(particles, delta))) ==> p.age == 0.0 && p.pos == config.pos
      ensures emit == old(emit) && pos == old(pos) && hasCallback == old(hasCallback) && spawnTimer == old(spawnTimer)
      ensures emitterAge == old(emitterAge) && completed == old(completed) && completions == old(completions)
    {
      ghost var ps0 := particles;
      ghost var keep := KeepFlags(particles, delta);
      ghost var items0 := pool.items;
      var i := |particles|;
      while i > 0
        invariant 0 <= i <= |ps0| && |keep| == |ps0| && Distinct(ps0)
        invariant Valid()
        invariant emit == old(emit) && pos == old(pos) && hasCallback == old(hasCallback) && spawnTimer == old(spawnTimer)
        invariant emitterAge == old(emitterAge) && completed == old(completed) && completions == old(completions)
        invariant CullProgress(ps0, keep, items0, i, delta)
      {
        i := i - 1;
        CullNext(i, ps0, keep, items0, delta, rng, fns);
      }
      assert ps0[..0] == [] && ps0[0..] == ps0 && keep[0..] == keep;
    }

    /**
     * The cull loop after it has visited `ps0[i..]` (the list as it was, with the flags `keep`
     * of who survives): the unvisited front is as it was, the visited survivors follow it
     * and are alive, and the visited dead have joined the pool after `items0`, reset.
     */
    ghost predicate CullProgress(ps0: seq<Particle>, keep: seq<bool>, items0: seq<Particle>, i: nat, delta: real)
      requires |keep| == |ps0| && i <= |ps0|
      reads this, pool, set p | p in ps0
    {
      particles == ps0[..i] + Kept(ps0[i..], keep[i..]) &&
      pool.items == items0 + Dropped(ps0[i..], keep[i..]) &&
      (forall j :: 0 <= j < i ==> (keep[j] <==> ps0[j].age + delta < ps0[j].life)) &&
      AllAlive(Kept(ps0[i..], keep[i..])) && AllReset(Dropped(ps0[i..], keep[i..]), config.pos)
    }

    /** One turn of the cull loop: visits `ps0[i]`. */
    method CullNext(i: nat, ghost ps0: seq<Particle>, ghost keep: seq<bool>, ghost items0: seq<Particle>,
                    delta: real, rng: Random, fns: MathFns)
      requires i < |ps0| && |keep| == |ps0| && Distinct(ps0)
      requires Valid() && CullProgress(ps0, keep, items0, i + 1, delta)
      modifies this, pool, rng, ps0[i]
      ensures Valid() && CullProgress(ps0, keep, items0, i, delta)
      ensures emit == old(emit) && pos == old(pos) && hasCallback == old(hasCallback) && spawnTimer == old(spawnTimer)
      ensures emitterAge == old(emitterAge) && completed == old(completed) && completions == old(completions)
    {
      CullStep(ps0, keep, i);
      ghost var kept0, dropped0 := Kept(ps0[i + 1..], keep[i + 1..]), Dropped(ps0[i + 1..], keep[i + 1..]);
      var p := ps0[i];
      ghost var b := keep[i];
      assert particles[..i] == ps0[..i] && particles[i] == p && particles[i + 1..] == kept0;
      assert p !in kept0 && p !in dropped0;
      CullAt(i, b, delta, rng, fns);
      AppendAssoc(items0, dropped0, if b then [] else [p]);
      assert AllAlive(kept0) && AllReset(dropped0, config.pos);
      AliveCons(p, b, kept0);
      ResetSnoc(p, b, dropped0, config.pos);
    }

    /**
     * One iteration of the cull loop at index `i`: the particle is updated; when it is then
     * dead (`keep` is false) it leaves the active list, joins the pool and is reset.
     */
    method CullAt(i: nat, ghost keep: bool, delta: real, rng: Random, fns: MathFns)
      requires Valid() && i < |particles|
      requires keep <==> particles[i].age + delta < particles[i].life
      modifies this, pool, rng, particles[i]
      ensures Valid()
      ensures var p := old(particles[i]);
        particles == old(particles[..i]) + ((if keep then [p] else []) + old(particles[i + 1..])) &&
        pool.items == old(pool.items) + (if keep then [] else [p]) &&
        (keep ==> p.IsAlive()) && (!keep ==> p.age == 0.0 && p.pos == config.pos)
      ensures emit == old(emit) && pos == old(pos) && hasCallback == old(hasCallback) && spawnTimer == old(spawnTimer)
      ensures emitterAge == old(emitterAge) && completed == old(completed) && completions == old(completions)
    {
      var p := particles[i];
      Tick(p, delta, rng, fns);
      assert particles == particles[..i] + ([p] + particles[i + 1..]);
      if !p.IsAlive() {
        particles := particles[..i] + particles[i + 1..];
        Recycle(p, rng, fns);
      }
    }

    /** `p.update(delta)`, of which the cull loop needs only the ageing. */
    method Tick(p: Particle, delta: real, rng: Random, fns: MathFns)
      modifies p, rng
      ensures p.age == old(p.age) + delta && p.life == old(p.life)
    {
      p.Update(delta, rng, fns);
    }

    /** `particles_pool_bag.release(p)` with its hook `p.reset()`. */
    method Recycle(p: Particle, rng: Random, fns: MathFns)
      requires pool.Valid() && p.config == config
      modifies pool, p, rng
      ensures pool.Valid() && pool.items == Insert(old(pool.items), p)
      ensures p.age == 0.0 && p.pos == config.pos
    {
      pool.Release(p);
      p.Reset(rng, fns);
    }
  }

  /** Every particle of `qs` is alive. */
  predicate AllAlive(qs: seq<Particle>)
    reads set q | q in qs
  {
    forall q :: q in qs ==> q.IsAlive()
  }

  /** Every particle of `qs` is reset: age 0, at `at`. */
  predicate AllReset(qs: seq<Particle>, at: Point)
    reads set q | q in qs
  {
    forall q :: q in qs ==> q.age == 0.0 && q.pos == at
  }

  /** A survivor put in front of living particles leaves them all alive. */
  lemma AliveCons(p: Particle, keep: bool, rest: seq<Particle>)
    requires keep ==> p.IsAlive()
    requires AllAlive(rest)
    ensures AllAlive((if keep then [p] else []) + rest)
  {
  }

  /** A reset particle put after reset ones leaves them all reset. */
  lemma ResetSnoc(p: Particle, keep: bool, rest: seq<Particle>, at: Point)
    requires !keep ==> p.age == 0.0 && p.pos == at
    requires AllReset(rest, at)
    ensures AllReset(rest + (if keep then [] else [p]), at)
  {
  }

  /** A sequence that extends `before` agrees with it on every slice inside `before`. */
  lemma SliceOfExtension<T>(before: seq<T>, after: seq<T>, a: nat, b: nat)
    requires |before| <= |after| && after[..|before|] == before && a <= b <= |before|
    ensures after[..a] == before[..a] && after[a..b] == before[a..b]
  {
    assert forall j :: 0 <= j < b ==> after[j] == after[..|before|][j];
  }

  /** The active list `ps` extends `ps0`, and the pool `items` is what is left of `items0` after taking from its front. */
  ghost predicate Grown<T>(ps0: seq<T>, ps: seq<T>, items0: seq<T>, items: seq<T>) {
    |ps0| <= |ps| && ps[..|ps0|] == ps0 && |items| <= |items0| && items == items0[|items0| - |items|..]
  }

  lemma GrownTwice<T>(ps0: seq<T>, ps1: seq<T>, ps2: seq<T>, items0: seq<T>, items1: seq<T>, items2: seq<T>)
    requires Grown(ps0, ps1, items0, items1) && Grown(ps1, ps2, items1, items2)
    ensures Grown(ps0, ps2, items0, items2)
  {
    SliceOfExtension(ps1, ps2, |ps0|, |ps0|);
  }

  lemma AppendAssoc<T>(a: seq<T>, b: seq<T>, c: seq<T>)
    ensures a + b + c == a + (b + c)
  {
  }

  /** Cutting one particle off the front of the unprocessed part: the kept and dropped lists. */
  lemma CullStep(ps: seq<Particle>, keep: seq<bool>, i: nat)
    requires |keep| == |ps| && i < |ps| && Distinct(ps)
    ensures Kept(ps[i..], keep[i..]) == (if keep[i] then [ps[i]] else []) + Kept(ps[i + 1..], keep[i + 1..])
    ensures Dropped(ps[i..], keep[i..]) == Dropped(ps[i + 1..], keep[i + 1..]) + (if keep[i] then [] else [ps[i]])
    ensures ps[i] !in Kept(ps[i + 1..], keep[i + 1..]) && ps[i] !in Dropped(ps[i + 1..], keep[i + 1..])
    ensures ps[..i + 1] == ps[..i] + [ps[i]]
  {
    assert ps[i..][1..] == ps[i + 1..];
    assert keep[i..][1..] == keep[i + 1..];
    assert ps[i] !in ps[i + 1..];
  }

  /** An emitter that emits forever and never stops emitting does not complete. */
  lemma InfiniteEmitterNeverCompletes(e: Option<real>, emit: bool, age: real, count: nat)
    requires EmitterLifeOf(e).Infinite? && emit
    ensures !((!emit || !Below(age, EmitterLifeOf(e))) && count == 0)
  {
  }
}
