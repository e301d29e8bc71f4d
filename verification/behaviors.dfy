/**
 * The behaviour list of an emitter config (`BehaviorEntryType` of
 * `particle_emitter/types.ts`) and how a `Particle`'s constructor resolves it: each tag is
 * looked up with `find`, so the first entry of a tag wins, and a static variant replaces
 * the curve variant whatever their order.
 */
module Behaviors {
  import opened Numeric
  import opened Wrappers
  import opened MathUtils
  import opened KeyFrames
  import Animation

  /** `EmitterRandNumber`: an inclusive range to draw from. */
  datatype RandNumber = RandNumber(min: real, max: real)

  /** `AnimFrame`: frame names, an optional frame duration and an optional loop flag. */
  datatype AnimFrame = AnimFrame(textures: seq<string>, frameDuration: Option<real>, loop: Option<bool>)

  /** The `moveAcceleration` config; `maxSpeed` may be missing at run time. */
  datatype AccelConfig = AccelConfig(minStart: real, maxStart: real, rotate: bool, accel: Point, maxSpeed: Option<real>)

  /** The `rotation` config, in degrees. */
  datatype RotationConfig = RotationConfig(minStart: real, maxStart: real, minSpeed: real, maxSpeed: real, accel: real)

  /** The `spawnShape` config. */
  datatype ShapeConfig =
    | RectShape(x: real, y: real, w: real, h: real)
    | TorusShape(cx: real, cy: real, radius: real, innerRadius: real, affectRotation: bool)

  /** One `BehaviorEntryType`; the constructor is the `type` tag, its fields the `config`. */
  datatype Behavior =
    | TextureSingle(texture: string)
    | TextureRandom(textures: seq<string>)
    | AnimatedSingle(anim: AnimFrame)
    | AnimatedRandom(anims: seq<AnimFrame>)
    | Color(colorList: seq<Key<string>>)
    | ColorStatic(color: string)
    | Scale(scaleList: seq<Key<real>>, scaleMinMult: Option<real>)
    | ScaleStatic(scaleRange: RandNumber)
    | MoveSpeed(speedList: seq<Key<real>>, speedMinMult: Option<real>)
    | MoveSpeedStatic(speedRange: RandNumber)
    | MoveAcceleration(accelConfig: AccelConfig)
    | Alpha(alphaList: seq<Key<real>>)
    | AlphaStatic(alpha: real)
    | NoRotation
    | Rotation(rotationConfig: RotationConfig)
    | RotationStatic(rotationRange: RandNumber)
    | SpawnPoint
    | SpawnBurst(start: real, spacing: real)
    | SpawnShape(shape: ShapeConfig)

  /**
   * `EmitterConfig`; the optional fields are `None` when omitted. `particles_per_wave` is
   * taken to be a whole number. `blend_mode` only matters for drawing and is not kept.
   */
  datatype EmitterConfig = EmitterConfig(
    pos: Point,
    lifetime: RandNumber,
    frequency: real,
    particlesPerWave: Option<nat>,
    emitterLifetime: Option<real>,
    maxParticles: Option<real>,
    emit: Option<bool>,
    behaviors: seq<Behavior>)

  /** The `type` tag of a behaviour. */
  datatype Tag =
    | TextureSingleTag | TextureRandomTag | AnimatedSingleTag | AnimatedRandomTag
    | ColorTag | ColorStaticTag | ScaleTag | ScaleStaticTag | MoveSpeedTag | MoveSpeedStaticTag
    | MoveAccelerationTag | AlphaTag | AlphaStaticTag | NoRotationTag | RotationTag
    | RotationStaticTag | SpawnPointTag | SpawnBurstTag | SpawnShapeTag

  function TagOf(b: Behavior): Tag {
    match b
    case TextureSingle(_) => TextureSingleTag
    case TextureRandom(_) => TextureRandomTag
    case AnimatedSingle(_) => AnimatedSingleTag
    case AnimatedRandom(_) => AnimatedRandomTag
    case Color(_) => ColorTag
    case ColorStatic(_) => ColorStaticTag
    case Scale(_, _) => ScaleTag
    case ScaleStatic(_) => ScaleStaticTag
    case MoveSpeed(_, _) => MoveSpeedTag
    case MoveSpeedStatic(_) => MoveSpeedStaticTag
    case MoveAcceleration(_) => MoveAccelerationTag
    case Alpha(_) => AlphaTag
    case AlphaStatic(_) => AlphaStaticTag
    case NoRotation => NoRotationTag
    case Rotation(_) => RotationTag
    case RotationStatic(_) => RotationStaticTag
    case SpawnPoint => SpawnPointTag
    case SpawnBurst(_, _) => SpawnBurstTag
    case SpawnShape(_) => SpawnShapeTag
  }

  /** The position `behaviors.find(b => b.type === tag)` stops at: the first entry of that tag. */
  function FindIndex(list: seq<Behavior>, tag: Tag): (r: Option<nat>)
    ensures r.Some? ==> r.value < |list| && TagOf(list[r.value]) == tag
    ensures r.Some? ==> forall j :: 0 <= j < r.value ==> TagOf(list[j]) != tag
    ensures r.None? ==> forall j :: 0 <= j < |list| ==> TagOf(list[j]) != tag
  {
    if list == [] then None
    else if TagOf(list[0]) == tag then Some(0)
    else match FindIndex(list[1..], tag)
      case None => None
      case Some(k) => Some(k + 1)
  }

  /** `behaviors.find(b => b.type === tag)`. */
  function Find(list: seq<Behavior>, tag: Tag): (r: Option<Behavior>)
    ensures r.Some? ==> r.value in list && TagOf(r.value) == tag
  {
    match FindIndex(list, tag)
    case None => None
    case Some(k) => Some(list[k])
  }

  /** `find` comes back empty exactly when no entry has the tag. */
  lemma FindNone(list: seq<Behavior>, tag: Tag)
    ensures Find(list, tag).None? <==> forall b :: b in list ==> TagOf(b) != tag
  {
  }

  /** Where a numeric property comes from: a key-frame curve times a multiplier, a constant, or a fresh draw. */
  datatype NumberSource = NoSource | Curve(keys: seq<Key<real>>, mult: real) | Constant(value: real) | Uniform(low: real, high: real)

  /** Where the tint comes from: a key-frame curve or a constant colour string. */
  datatype ColorSource = NoColor | ColorCurve(colors: seq<Key<string>>) | ColorConstant(hex: string)

  /** `get_alpha`: a static alpha replaces the curve. */
  function AlphaSource(list: seq<Behavior>): NumberSource {
    match Find(list, AlphaStaticTag)
    case Some(s) => Constant(s.alpha)
    case None =>
      match Find(list, AlphaTag)
      case Some(c) => Curve(c.alphaList, 1.0)
      case None => NoSource
  }

  /** `get_color`: a static colour replaces the curve unless it is the empty string. */
  function ColorSourceOf(list: seq<Behavior>): ColorSource {
    var s := Find(list, ColorStaticTag);
    if s.Some? && s.value.color != "" then ColorConstant(s.value.color)
    else match Find(list, ColorTag)
      case Some(c) => ColorCurve(c.colorList)
      case None => NoColor
  }

  /** `get_scale`: a static range (drawn anew on every call) replaces the curve. */
  function ScaleSource(list: seq<Behavior>): NumberSource {
    match Find(list, ScaleStaticTag)
    case Some(s) => Uniform(s.scaleRange.min, s.scaleRange.max)
    case None =>
      match Find(list, ScaleTag)
      case Some(c) => Curve(c.scaleList, if c.scaleMinMult.Some? then c.scaleMinMult.value else 1.0)
      case None => NoSource
  }

  /** `get_speed`: a static range (drawn anew on every call) replaces the curve. */
  function SpeedSource(list: seq<Behavior>): NumberSource {
    match Find(list, MoveSpeedStaticTag)
    case Some(s) => Uniform(s.speedRange.min, s.speedRange.max)
    case None =>
      match Find(list, MoveSpeedTag)
      case Some(c) => Curve(c.speedList, if c.speedMinMult.Some? then c.speedMinMult.value else 1.0)
      case None => NoSource
  }

  /** A source evaluated at life fraction `t`; `u` is the draw a `Uniform` source consumes. */
  function NumberValue(src: NumberSource, t: real, u: Unit): (v: Option<real>)
    ensures v.None? <==> src.NoSource?
    ensures src.Uniform? && src.low <= src.high ==> src.low <= v.value <= src.high
  {
    match src
    case NoSource => None
    case Curve(keys, mult) => Some(NumberAt(keys, t) * mult)
    case Constant(value) => Some(value)
    case Uniform(low, high) =>
      // `u * (high - low) + low`, the lerp from `low` to `high`
      LerpBetween(low, high, u);
      Some(Lerp(low, high, u))
  }

  function ColorValue(src: ColorSource, t: real): (c: Option<Tint>)
    ensures c.None? <==> src.NoColor?
  {
    match src
    case NoColor => None
    case ColorCurve(colors) => Some(ColorAt(colors, t))
    case ColorConstant(hex) => Some(HexTint(hex))
  }

  /** The item `random_item_from_array` picks for a draw `u`: index `floor(u * n)`; none from an empty list. */
  function Pick<T>(items: seq<T>, u: Unit): (r: Option<T>)
    ensures r.None? <==> items == []
    ensures r.Some? ==> r.value in items
  {
    if items == [] then None
    else
      var k := (u * |items| as real).Floor;
      PickInRange(|items|, u);
      Some(items[k])
  }

  lemma PickInRange(n: nat, u: Unit)
    requires n > 0
    ensures 0 <= (u * n as real).Floor < n
  {
    assert u * n as real < n as real by {
      assert (1.0 - u) * n as real > 0.0;
    }
  }

  /** The options `new AnimatedTexture` receives: `loop ? Infinity : 1`, the frame duration as given. */
  function AnimOptions(anim: AnimFrame, frames: seq<Animation.Texture>): (o: Animation.Options)
    ensures o.loop == Some(if anim.loop == Some(true) then Infinite else Finite(1.0))
    ensures o.frameDuration == anim.frameDuration && o.frames == frames
  {
    Animation.Options(frames, None, anim.frameDuration,
      Some(if anim.loop == Some(true) then Infinite else Finite(1.0)), None, None, None)
  }

  /** An omitted `loop` is falsy: the particle's animation plays once, not forever. */
  lemma OmittedLoopPlaysOnce(anim: AnimFrame, frames: seq<Animation.Texture>)
    requires anim.loop.None?
    ensures Animation.LoopsFrom(AnimOptions(anim, frames).loop.value) == Animation.Times(1)
  {
    assert Trunc(1.0) == 1;
  }

  /** Everything a `Particle` keeps from its config. */
  datatype Look = Look(
    alpha: NumberSource,
    color: ColorSource,
    scale: NumberSource,
    speed: NumberSource,
    texture: Option<string>,
    anim: Option<AnimFrame>,
    rotationStatic: Option<RandNumber>,
    rotation: Option<RotationConfig>,
    accel: Option<AccelConfig>)

  /** The static texture: a random one replaces a single one; a random one from an empty list throws. */
  function TextureOf(list: seq<Behavior>, uTexture: Unit): (r: Result<Option<string>>)
    ensures r.Failure? <==> Find(list, TextureRandomTag).Some? && Find(list, TextureRandomTag).value.textures == []
    ensures r.Failure? ==> r.error == "error get random texture"
    ensures Find(list, TextureRandomTag).Some? && r.Success? ==>
      r.value == Pick(Find(list, TextureRandomTag).value.textures, uTexture)
    ensures Find(list, TextureRandomTag).None? ==>
      r == Success(if Find(list, TextureSingleTag).Some? then Some(Find(list, TextureSingleTag).value.texture) else None)
  {
    match Find(list, TextureRandomTag)
    case Some(b) =>
      (match Pick(b.textures, uTexture)
       case None => Failure("error get random texture")
       case Some(t) => Success(Some(t)))
    case None =>
      (match Find(list, TextureSingleTag)
       case Some(s) => Success(Some(s.texture))
       case None => Success(None))
  }

  /** The animation config: a random one replaces a single one; a random one from an empty list throws. */
  function AnimOf(list: seq<Behavior>, uAnim: Unit): (r: Result<Option<AnimFrame>>)
    ensures r.Failure? <==> Find(list, AnimatedRandomTag).Some? && Find(list, AnimatedRandomTag).value.anims == []
    ensures r.Failure? ==> r.error == "error getting random animation config"
    ensures Find(list, AnimatedRandomTag).Some? && r.Success? ==>
      r.value == Pick(Find(list, AnimatedRandomTag).value.anims, uAnim)
    ensures Find(list, AnimatedRandomTag).None? ==>
      r == Success(if Find(list, AnimatedSingleTag).Some? then Some(Find(list, AnimatedSingleTag).value.anim) else None)
  {
    match Find(list, AnimatedRandomTag)
    case Some(b) =>
      (match Pick(b.anims, uAnim)
       case None => Failure("error getting random animation config")
       case Some(a) => Success(Some(a)))
    case None =>
      (match Find(list, AnimatedSingleTag)
       case Some(s) => Success(Some(s.anim))
       case None => Success(None))
  }

  /** The config lookups of the `Particle` constructor; the texture lookup comes first and throws first. */
  function Resolve(list: seq<Behavior>, uTexture: Unit, uAnim: Unit): (r: Result<Look>)
    ensures TextureOf(list, uTexture).Failure? ==> r == Failure("error get random texture")
    ensures TextureOf(list, uTexture).Success? && AnimOf(list, uAnim).Failure? ==>
      r == Failure("error getting random animation config")
    ensures r.Success? ==> r.value.texture == TextureOf(list, uTexture).value && r.value.anim == AnimOf(list, uAnim).value
  {
    var texture :- TextureOf(list, uTexture);
    var anim :- AnimOf(list, uAnim);
    Success(LookOf(list, texture, anim))
  }

  /** The look of a behaviour list once its texture and animation are chosen. */
  function LookOf(list: seq<Behavior>, texture: Option<string>, anim: Option<AnimFrame>): Look {
    var rs := Find(list, RotationStaticTag);
    var rot := Find(list, RotationTag);
    var acc := Find(list, MoveAccelerationTag);
    Look(
      AlphaSource(list), ColorSourceOf(list), ScaleSource(list), SpeedSource(list), texture, anim,
      if rs.Some? then Some(rs.value.rotationRange) else None,
      if rot.Some? then Some(rot.value.rotationConfig) else None,
      if acc.Some? then Some(acc.value.accelConfig) else None)
  }

  /** The random lookups cannot fail: neither random list present is empty. */
  predicate Resolvable(list: seq<Behavior>) {
    (Find(list, TextureRandomTag).Some? ==> Find(list, TextureRandomTag).value.textures != []) &&
    (Find(list, AnimatedRandomTag).Some? ==> Find(list, AnimatedRandomTag).value.anims != [])
  }

  /** Resolution fails exactly when a random list is empty, whatever the draws. */
  lemma ResolvableIff(list: seq<Behavior>, uTexture: Unit, uAnim: Unit)
    ensures Resolve(list, uTexture, uAnim).Success? <==> Resolvable(list)
  {
  }

  /**
   * A static variant replaces the curve variant wherever they stand in the list: static
   * alpha, scale and speed always, a static colour when it is not empty.
   */
  lemma {:induction false} StaticBeatsCurve(before: seq<Behavior>, s: Behavior, after: seq<Behavior>)
    requires forall b :: b in before ==> TagOf(b) != TagOf(s)
    ensures s.AlphaStatic? ==> AlphaSource(before + [s] + after) == Constant(s.alpha)
    ensures s.ScaleStatic? ==> ScaleSource(before + [s] + after) == Uniform(s.scaleRange.min, s.scaleRange.max)
    ensures s.MoveSpeedStatic? ==> SpeedSource(before + [s] + after) == Uniform(s.speedRange.min, s.speedRange.max)
    ensures s.ColorStatic? && s.color != "" ==> ColorSourceOf(before + [s] + after) == ColorConstant(s.color)
  {
    FindFirstOfTag(before, s, after);
  }

  /** The first entry of a tag is the one found, whatever follows it. */
  lemma {:induction false} FindFirstOfTag(before: seq<Behavior>, s: Behavior, after: seq<Behavior>)
    requires forall b :: b in before ==> TagOf(b) != TagOf(s)
    ensures Find(before + [s] + after, TagOf(s)) == Some(s)
  {
    var list := before + [s] + after;
    assert list[|before|] == s;
    assert forall j :: 0 <= j < |before| ==> list[j] == before[j];
  }

  /** An empty static colour does not replace a colour curve. */
  lemma EmptyStaticColorKeepsCurve(list: seq<Behavior>)
    requires Find(list, ColorStaticTag) == Some(ColorStatic(""))
    requires Find(list, ColorTag).Some?
    ensures ColorSourceOf(list) == ColorCurve(Find(list, ColorTag).value.colorList)
  {
  }
}
