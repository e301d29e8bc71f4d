/**
 * `AnimatedTexture` of `animated_texture.ts`: a frame index that advances as time
 * accumulates, wrapping or bouncing (ping-pong) while loops remain and stopping on the
 * last one. The position state is a `Playhead` value; `Advance` and `Run` are the
 * specifications the class's `advance_index` and `advance_index_by` are proved against.
 */
module Animation {
  import opened Numeric
  import opened Wrappers

  /** A resolved frame texture; looking frames up by name is not part of this model. */
  type Texture = nat

  /** `loops_remaining`: `Infinity` or a whole number of loops. */
  datatype LoopCount = Forever | Times(n: nat)

  /** `loops_remaining === Infinity || loops_remaining > 1`. */
  predicate MoreLoops(l: LoopCount) {
    l.Forever? || l.n > 1
  }

  /** One loop used up; `Infinity` stays. */
  function Consume(l: LoopCount): (r: LoopCount)
    requires MoreLoops(l)
    ensures r.Forever? <==> l.Forever?
    ensures r.Times? ==> r.n + 1 == l.n
  {
    if l.Forever? then Forever else Times(l.n - 1)
  }

  /** `a` allows no more loops than `b`. */
  predicate AtMost(a: LoopCount, b: LoopCount) {
    b.Forever? || (a.Times? && a.n <= b.n)
  }

  /** The fields `advance_index` reads and writes. */
  datatype Playhead = Playhead(idx: int, dir: int, loops: LoopCount, playing: bool)

  /** A playhead inside a list of `len` frames, moving by one either way. */
  predicate InRange(h: Playhead, len: nat) {
    0 <= h.idx < len && (h.dir == 1 || h.dir == -1)
  }

  /** The new playhead after one `advance_index`, and whether `animation_complete` ran. */
  datatype Step = Step(head: Playhead, fired: bool)

  /** `advance_index` on `len` frames. */
  function Advance(h: Playhead, len: nat, pingPong: bool): Step {
    if !pingPong then
      if h.idx + 1 < len then Step(h.(idx := h.idx + 1), false)
      else if MoreLoops(h.loops) then Step(h.(loops := Consume(h.loops), idx := 0), false)
      else Step(h.(idx := len - 1, playing := false), true)
    else
      var last := len - 1;
      var i := h.idx + h.dir;
      if i > last then
        if MoreLoops(h.loops) then Step(h.(loops := Consume(h.loops), idx := last - 1, dir := -1), false)
        else Step(h.(idx := last, playing := false), true)
      else if i < 0 then
        if MoreLoops(h.loops) then Step(h.(loops := Consume(h.loops), idx := 1, dir := 1), false)
        else Step(h.(idx := 0, playing := false), true)
      else Step(h.(idx := i), false)
  }

  /** The playhead after `advance_index_by(steps)`, and how often `animation_complete` ran. */
  datatype RunResult = RunResult(head: Playhead, fires: nat)

  /** `advance_index_by`: advance up to `steps` times, stopping right after playback stops. */
  function Run(h: Playhead, len: nat, pingPong: bool, steps: nat): RunResult
    decreases steps
  {
    if steps == 0 then RunResult(h, 0)
    else
      var s := Advance(h, len, pingPong);
      var fired := if s.fired then 1 else 0;
      if !s.head.playing then RunResult(s.head, fired)
      else
        var rest := Run(s.head, len, pingPong, steps - 1);
        RunResult(rest.head, rest.fires + fired)
  }

  /**
   * With two or more frames one advance keeps the index in range, never adds loops, and
   * stops playback exactly when it completes.
   */
  lemma AdvanceInRange(h: Playhead, len: nat, pingPong: bool)
    requires len >= 2 && InRange(h, len)
    ensures var s := Advance(h, len, pingPong);
      InRange(s.head, len) && AtMost(s.head.loops, h.loops) &&
      s.head.playing == (h.playing && !s.fired)
  {
  }

  /** `advance_index_by` keeps the index in range and never adds loops. */
  lemma {:induction false} RunInRange(h: Playhead, len: nat, pingPong: bool, steps: nat)
    requires len >= 2 && InRange(h, len)
    ensures InRange(Run(h, len, pingPong, steps).head, len)
    ensures AtMost(Run(h, len, pingPong, steps).head.loops, h.loops)
    decreases steps
  {
    if steps > 0 {
      var s := Advance(h, len, pingPong);
      AdvanceInRange(h, len, pingPong);
      if s.head.playing {
        RunInRange(s.head, len, pingPong, steps - 1);
      }
    }
  }

  /**
   * The completion callback runs at most once per `update`, and only when playback has
   * stopped.
   */
  lemma {:induction false} RunFiresAtMostOnce(h: Playhead, len: nat, pingPong: bool, steps: nat)
    ensures Run(h, len, pingPong, steps).fires <= 1
    ensures Run(h, len, pingPong, steps).fires == 1 ==> !Run(h, len, pingPong, steps).head.playing
    decreases steps
  {
    if steps > 0 {
      var s := Advance(h, len, pingPong);
      if s.head.playing {
        assert !s.fired;
        RunFiresAtMostOnce(s.head, len, pingPong, steps - 1);
      }
    }
  }

  /** An animation that loops forever never completes and never stops by itself. */
  lemma {:induction false} ForeverNeverCompletes(h: Playhead, len: nat, pingPong: bool, steps: nat)
    requires len >= 2 && h.loops.Forever? && h.playing
    ensures Run(h, len, pingPong, steps).fires == 0
    ensures Run(h, len, pingPong, steps).head.playing
    decreases steps
  {
    if steps > 0 {
      ForeverNeverCompletes(Advance(h, len, pingPong).head, len, pingPong, steps - 1);
    }
  }

  /** On its last loop a non-ping-pong animation that reaches the last frame stops there and completes. */
  lemma LastLoopCompletes(h: Playhead, len: nat)
    requires len >= 1 && h.idx == len - 1 && h.loops.Times? && h.loops.n <= 1
    ensures Advance(h, len, false) == Step(h.(playing := false), true)
  {
  }

  /** `Math.max(0, Math.min(len - 1, i))`: an index clamped into the frame list. */
  function ClampIndex(i: int, len: nat): (r: int)
    ensures 0 <= r
    ensures len > 0 ==> r < len
    ensures 0 <= i < len ==> r == i
    ensures len > 0 && i >= len ==> r == len - 1
    ensures i < 0 ==> r == 0
  {
    var m := if len - 1 <= i then len - 1 else i;
    if m >= 0 then m else 0
  }

  /** `loop === Infinity ? Infinity : Math.max(0, loop | 0)`. */
  function LoopsFrom(loop: Ext): (r: LoopCount)
    ensures r.Forever? <==> loop.Infinite?
    ensures loop.Finite? && 0.0 <= loop.v < TWO_31 as real ==> r == Times(Trunc(loop.v))
  {
    if loop.Infinite? then Forever
    else var n := ToInt32(loop.v); Times(if n >= 0 then n else 0)
  }

  /** Elapsed milliseconds per unit of `delta_time`, `16.66`. */
  const MS_PER_DELTA: real := 16.66

  /** The frame time a `delta` adds at a given speed: `delta * 16.66 * speed` milliseconds. */
  function Scaled(delta: real, speed: real): (ms: real)
    ensures delta >= 0.0 && speed >= 0.0 ==> ms >= 0.0
  {
    delta * MS_PER_DELTA * speed
  }

  /** The steps `update` advances for an accumulator `a >= fd`, and the time it carries over. */
  lemma Carry(a: real, fd: real)
    requires fd > 0.0 && a >= fd
    ensures var steps := (a / fd).Floor;
      steps >= 1 && 0.0 <= a - fd * steps as real < fd
  {
    var q := a / fd;
    QuotientAtLeastOne(a, fd);
    var fr := q.Floor as real;
    assert fr <= q < fr + 1.0;
    ScaledGap(a, q, fr, fd);
  }

  lemma QuotientAtLeastOne(a: real, fd: real)
    requires fd > 0.0 && a >= fd
    ensures (a / fd) * fd == a && a / fd >= 1.0
  {
  }

  lemma ScaledGap(a: real, q: real, fr: real, fd: real)
    requires fd > 0.0 && fr <= q < fr + 1.0 && q * fd == a
    ensures 0.0 <= a - fd * fr < fd
  {
    var gap := fr + 1.0 - q;
    assert gap * fd > 0.0;
    assert gap * fd == fd * fr + fd - q * fd;
    assert (q - fr) * fd >= 0.0;
    assert (q - fr) * fd == q * fd - fd * fr;
    assert a - fd * fr == fd - gap * fd;
    assert a - fd * fr == (q - fr) * fd;
  }

  /** `AnimatedTextureOptions`; `None` is an omitted field, which takes its default. */
  datatype Options = Options(
    frames: seq<Texture>,
    startFrameIndex: Option<real>,
    frameDuration: Option<real>,
    loop: Option<Ext>,
    pingPong: Option<bool>,
    speed: Option<real>,
    autoplay: Option<bool>)

  function Default<T>(o: Option<T>, d: T): T {
    if o.Some? then o.value else d
  }

  class AnimatedTexture {
    var frames: seq<Texture>
    const frameDuration: real
    const pingPong: bool
    var speed: real
    var playing: bool
    var idx: int
    var dir: int
    var acc: real
    var loops: LoopCount
    /** Whether an `animation_complete_callback` is set. */
    var hasCallback: bool
    /** How many times the callback has run. */
    var completions: nat

    predicate Valid()
      reads this
    {
      frameDuration > 0.0 && 0.0 <= acc < frameDuration && speed >= 0.0 &&
      (dir == 1 || dir == -1) && 0 <= idx && (idx < |frames| || idx == 0)
    }

    function Head(): Playhead
      reads this
    {
      Playhead(idx, dir, loops, playing)
    }

    /** The constructor: defaults for omitted options, `speed >= 0`, loops and start index clamped. */
    constructor (options: Options)
      requires options.frameDuration.None? || options.frameDuration.value > 0.0
      ensures Valid()
      ensures frames == options.frames
      ensures frameDuration == Default(options.frameDuration, 100.0)
      ensures pingPong == Default(options.pingPong, false)
      ensures speed == Max(0.0, Default(options.speed, 1.0))
      ensures loops == LoopsFrom(Default(options.loop, Infinite))
      ensures playing == Default(options.autoplay, true)
      ensures idx == ClampIndex(ToInt32(Default(options.startFrameIndex, 0.0)), |options.frames|)
      ensures dir == 1 && acc == 0.0 && !hasCallback && completions == 0
    {
      frames := options.frames;
      frameDuration := Default(options.frameDuration, 100.0);
      pingPong := Default(options.pingPong, false);
      speed := Max(0.0, Default(options.speed, 1.0));
      loops := LoopsFrom(Default(options.loop, Infinite));
      playing := Default(options.autoplay, true);
      idx := ClampIndex(ToInt32(Default(options.startFrameIndex, 0.0)), |options.frames|);
      dir := 1;
      acc := 0.0;
      hasCallback := false;
      completions := 0;
    }

    /** `get_current_frame_index`. */
    function CurrentFrameIndex(): (i: int)
      requires Valid()
      reads this
      ensures 0 <= i && (frames != [] ==> i < |frames|)
    {
      idx
    }

    method SetSpeed(value: real)
      requires Valid()
      modifies this
      ensures Valid() && speed == Max(0.0, value)
      ensures Head() == old(Head()) && acc == old(acc) && frames == old(frames)
      ensures hasCallback == old(hasCallback) && completions == old(completions)
    {
      speed := Max(0.0, value);
    }

    method SetOnAnimationComplete()
      modifies this
      ensures hasCallback
      ensures Head() == old(Head()) && acc == old(acc) && speed == old(speed) && frames == old(frames)
      ensures completions == old(completions)
    {
      hasCallback := true;
    }

    /** `stop`: halts and rewinds to the first frame, moving forward. */
    method Stop()
      requires Valid()
      modifies this
      ensures Valid()
      ensures !playing && idx == 0 && dir == 1 && acc == 0.0
      ensures loops == old(loops) && speed == old(speed) && frames == old(frames)
      ensures hasCallback == old(hasCallback) && completions == old(completions)
    {
      playing := false;
      idx := 0;
      dir := 1;
      acc := 0.0;
    }

    method Play()
      requires Valid()
      modifies this
      ensures Valid() && playing
      ensures idx == old(idx) && dir == old(dir) && loops == old(loops) && acc == old(acc)
      ensures speed == old(speed) && frames == old(frames)
      ensures hasCallback == old(hasCallback) && completions == old(completions)
    {
      playing := true;
    }

    method Pause()
      requires Valid()
      modifies this
      ensures Valid() && !playing
      ensures idx == old(idx) && dir == old(dir) && loops == old(loops) && acc == old(acc)
      ensures speed == old(speed) && frames == old(frames)
      ensures hasCallback == old(hasCallback) && completions == old(completions)
    {
      playing := false;
    }

    /** `dispose`: stops, drops the frames and the callback. */
    method Dispose()
      requires Valid()
      modifies this
      ensures Valid()
      ensures !playing && idx == 0 && dir == 1 && acc == 0.0 && frames == [] && !hasCallback
      ensures loops == old(loops) && speed == old(speed) && completions == old(completions)
    {
      Stop();
      frames := [];
      hasCallback := false;
    }

    /** `goto_frame`: a no-op without frames; otherwise the clamped index, with the accumulator reset. */
    method GotoFrame(frameIndex: real)
      requires Valid()
      modifies this
      ensures Valid()
      ensures old(frames) == [] ==> idx == old(idx) && acc == old(acc)
      ensures old(frames) != [] ==> idx == ClampIndex(ToInt32(frameIndex), |frames|) && acc == 0.0
      ensures dir == old(dir) && loops == old(loops) && playing == old(playing)
      ensures speed == old(speed) && frames == old(frames)
      ensures hasCallback == old(hasCallback) && completions == old(completions)
    {
      if |frames| == 0 {
        return;
      }
      idx := ClampIndex(ToInt32(frameIndex), |frames|);
      acc := 0.0;
    }

    /** `advance_index`, proved against `Advance`. */
    method AdvanceIndex()
      requires Valid() && |frames| >= 2
      modifies this
      ensures Valid()
      ensures var s := Advance(old(Head()), |frames|, pingPong);
        Head() == s.head &&
        completions == old(completions) + (if s.fired && hasCallback then 1 else 0)
      ensures acc == old(acc) && speed == old(speed) && frames == old(frames) && hasCallback == old(hasCallback)
    {
      AdvanceInRange(Head(), |frames|, pingPong);
      if !pingPong {
        if idx + 1 < |frames| {
          idx := idx + 1;
        } else if MoreLoops(loops) {
          loops := Consume(loops);
          idx := 0;
        } else {
          idx := |frames| - 1;
          playing := false;
          AnimationComplete();
        }
        return;
      }
      var last := |frames| - 1;
      idx := idx + dir;
      if idx > last {
        if MoreLoops(loops) {
          loops := Consume(loops);
          idx := last - 1;
          dir := -1;
        } else {
          idx := last;
          playing := false;
          AnimationComplete();
        }
      } else if idx < 0 {
        if MoreLoops(loops) {
          loops := Consume(loops);
          idx := 1;
          dir := 1;
        } else {
          idx := 0;
          playing := false;
          AnimationComplete();
        }
      }
    }

    /** `animation_complete`: runs the callback when one is set. */
    method AnimationComplete()
      modifies this
      ensures completions == old(completions) + (if hasCallback then 1 else 0)
      ensures Head() == old(Head()) && acc == old(acc) && speed == old(speed) && frames == old(frames)
      ensures hasCallback == old(hasCallback)
    {
      if hasCallback {
        completions := completions + 1;
      }
    }

    /** `advance_index_by`, proved against `Run`. */
    method AdvanceIndexBy(steps: nat)
      requires Valid() && |frames| >= 2
      modifies this
      ensures Valid()
      ensures var r := Run(old(Head()), |frames|, pingPong, steps);
        Head() == r.head && completions == old(completions) + (if hasCallback then r.fires else 0)
      ensures acc == old(acc) && speed == old(speed) && frames == old(frames) && hasCallback == old(hasCallback)
    {
      ghost var goal := Run(Head(), |frames|, pingPong, steps);
      ghost var fired: nat := 0;
      var i := 0;
      while i < steps
        invariant Valid() && 0 <= i <= steps
        invariant i == 0 || playing
        invariant acc == old(acc) && speed == old(speed) && frames == old(frames) && hasCallback == old(hasCallback)
        invariant var rest := Run(Head(), |frames|, pingPong, steps - i);
          goal == RunResult(rest.head, rest.fires + fired)
        invariant completions == old(completions) + (if hasCallback then fired else 0)
      {
        ghost var s := Advance(Head(), |frames|, pingPong);
        AdvanceIndex();
        fired := fired + (if s.fired then 1 else 0);
        if !playing {
          return;
        }
        i := i + 1;
      }
    }

    /**
     * `update(delta_time)`: nothing happens while paused, with at most one frame, for a
     * non-positive delta or at speed 0. Otherwise the scaled time is added to the
     * accumulator, and once it reaches a frame's duration the index advances by the whole
     * number of frames it holds, the remainder carried over.
     */
    method Update(delta: real)
      requires Valid()
      modifies this
      ensures Valid()
      ensures speed == old(speed) && frames == old(frames) && hasCallback == old(hasCallback)
      ensures !old(playing) || |frames| <= 1 || delta <= 0.0 || speed == 0.0 ==>
        Head() == old(Head()) && acc == old(acc) && completions == old(completions)
      ensures old(playing) && |frames| > 1 && delta > 0.0 && speed != 0.0 ==>
        var a := old(acc) + Scaled(delta, speed);
        if a < frameDuration then Head() == old(Head()) && acc == a && completions == old(completions)
        else
          var steps := (a / frameDuration).Floor;
          var r := Run(old(Head()), |frames|, pingPong, steps);
          steps >= 1 && acc == a - frameDuration * steps as real &&
          Head() == r.head && completions == old(completions) + (if hasCallback then r.fires else 0)
    {
      if !playing || |frames| <= 1 || delta <= 0.0 || speed == 0.0 {
        return;
      }
      var a := acc + Scaled(delta, speed);
      acc := a;
      if a >= frameDuration {
        var steps := (a / frameDuration).Floor;
        Carry(a, frameDuration);
        acc := a - frameDuration * steps as real;
        AdvanceIndexBy(steps);
      }
    }
  }

  /** At most one completion per `update`, and the index stays among the frames. */
  lemma UpdateCompletesAtMostOnce(h: Playhead, len: nat, pingPong: bool, steps: nat)
    requires len >= 2 && InRange(h, len)
    ensures Run(h, len, pingPong, steps).fires <= 1
    ensures 0 <= Run(h, len, pingPong, steps).head.idx < len
  {
    RunFiresAtMostOnce(h, len, pingPong, steps);
    RunInRange(h, len, pingPong, steps);
  }
}
