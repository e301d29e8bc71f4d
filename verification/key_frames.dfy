/**
 * Colour helpers and the key-frame sampler of a particle
 * (src/particle_emitter/particle.ts: `hex_to_rgb`, `rgb_to_hex`, `sample_key_frames`).
 */
module KeyFrames {
  import opened Numeric
  import opened JsText
  import opened Wrappers

  // ---- hex_to_rgb / rgb_to_hex ----

  datatype Rgb = Rgb(r: int, g: int, b: int)

  /** Every channel is a byte. */
  predicate InRange(c: Rgb) {
    0 <= c.r < 256 && 0 <= c.g < 256 && 0 <= c.b < 256
  }

  /** `s.replace("#", "")`: a string pattern replaces its first occurrence only. */
  function RemoveFirst(s: string, c: char): (r: string)
    ensures c !in s ==> r == s
    ensures c in s ==> |r| == |s| - 1
  {
    if s == [] then []
    else if s[0] == c then s[1..]
    else [s[0]] + RemoveFirst(s[1..], c)
  }

  /** `(n >> 16) & 255`, `(n >> 8) & 255`, `n & 255` after the 32-bit conversion of `n`. */
  function Channels(n: int): (c: Rgb)
    ensures InRange(c)
    ensures 0 <= n < 0x100_0000 ==> n == c.r * 0x1_0000 + c.g * 0x100 + c.b
  {
    var w := WrapInt32(n);
    Rgb((w / 0x1_0000) % 256, (w / 0x100) % 256, w % 256)
  }

  /**
   * `hex_to_rgb`: drop the first `#`, double the digits of a three-digit form, read the rest
   * with `parseInt(_, 16)`; `NaN` converts to 0 before the shifts.
   */
  function HexToRgb(hex: string): (c: Rgb)
    ensures InRange(c)
  {
    var h := RemoveFirst(hex, '#');
    var digits := if |h| == 3 then [h[0], h[0], h[1], h[1], h[2], h[2]] else h;
    match ParseIntHex(digits)
    case Some(n) => Channels(n)
    case None => Channels(0)
  }

  /** `v.toString(16).padStart(2, "0")`. */
  function ByteHex(v: int): string {
    PadStart(IntToHex(v), 2, '0')
  }

  /** `rgb_to_hex`: `#` and two digits per channel (more when a channel is out of range). */
  function RgbToHex(c: Rgb): string {
    "#" + (ByteHex(c.r) + ByteHex(c.g) + ByteHex(c.b))
  }

  /** Bytes print as `#` followed by exactly six lower-case hexadecimal digits. */
  lemma RgbToHexShape(c: Rgb)
    requires InRange(c)
    ensures var s := RgbToHex(c);
      |s| == 7 && s[0] == '#' && AllLowerHex(s[1..]) && AllHex(s[1..])
  {
    ByteHexDigits(c.r);
    ByteHexDigits(c.g);
    ByteHexDigits(c.b);
    var h := ByteHex(c.r) + ByteHex(c.g) + ByteHex(c.b);
    LowerHexConcat(ByteHex(c.r), ByteHex(c.g), ByteHex(c.b));
    assert RgbToHex(c)[1..] == h;
  }

  /** A byte prints as exactly two lower-case digits worth its value. */
  lemma ByteHexDigits(v: int)
    requires 0 <= v < 256
    ensures |ByteHex(v)| == 2 && AllLowerHex(ByteHex(v)) && AllHex(ByteHex(v))
    ensures HexValue(ByteHex(v)) == v
  {
    assert Pow16(2) == 256;
    PaddedHex(v, 2);
  }

  lemma LowerHexConcat(a: string, b: string, c: string)
    requires AllLowerHex(a) && AllLowerHex(b) && AllLowerHex(c)
    requires AllHex(a) && AllHex(b) && AllHex(c)
    ensures AllLowerHex(a + b + c) && AllHex(a + b + c)
  {
    var s := a + b + c;
    forall i | 0 <= i < |s| ensures IsLowerHexDigit(s[i]) && IsHexDigit(s[i]) {
      if i < |a| { assert s[i] == a[i]; }
      else if i < |a| + |b| { assert s[i] == b[i - |a|]; }
      else { assert s[i] == c[i - |a| - |b|]; }
    }
  }

  /** The six digits after `#` are worth `r * 65536 + g * 256 + b`. */
  lemma RgbToHexValue(c: Rgb)
    requires InRange(c)
    ensures AllHex(RgbToHex(c)[1..])
    ensures HexValue(RgbToHex(c)[1..]) == c.r * 0x1_0000 + c.g * 0x100 + c.b
  {
    var x, y, z := ByteHex(c.r), ByteHex(c.g), ByteHex(c.b);
    ByteHexDigits(c.r);
    ByteHexDigits(c.g);
    ByteHexDigits(c.b);
    assert RgbToHex(c)[1..] == x + y + z;
    assert Pow16(|y|) == 256 && Pow16(|z|) == 256;
    HexValueAppend(x, y);
    var hxy := HexValue(x + y);
    assert hxy == c.r * 256 + c.g;
    HexValueAppend(x + y, z);
    assert HexValue(x + y + z) == hxy * 256 + c.b;
  }

  /** Formatting a colour and parsing it back gives the same channels. */
  lemma HexRoundTrip(c: Rgb)
    requires InRange(c)
    ensures HexToRgb(RgbToHex(c)) == c
  {
    var s := RgbToHex(c);
    var h := s[1..];
    var n := c.r * 0x1_0000 + c.g * 0x100 + c.b;
    RgbToHexShape(c);
    assert RemoveFirst(s, '#') == h;
    assert ParseIntHex(h) == Some(n) by {
      RgbToHexValue(c);
      ParseIntHexOfDigits(h);
    }
    ChannelsOfBytes(c);
  }

  lemma ChannelsOfBytes(c: Rgb)
    requires InRange(c)
    ensures Channels(c.r * 0x1_0000 + c.g * 0x100 + c.b) == c
  {
    var n := c.r * 0x1_0000 + c.g * 0x100 + c.b;
    assert 0 <= n < 0x100_0000;
    assert WrapInt32(n) == n;
    assert n / 0x1_0000 == c.r;
    assert n / 0x100 == c.r * 0x100 + c.g;
    assert n % 256 == c.b;
  }

  /** `#RGB` reads as `#RRGGBB`. */
  lemma ShorthandDoubles(x: char, y: char, z: char)
    requires x != '#'
    ensures HexToRgb(['#', x, y, z]) == HexToRgb(['#', x, x, y, y, z, z])
  {
    assert RemoveFirst(['#', x, y, z], '#') == [x, y, z];
    assert RemoveFirst(['#', x, x, y, y, z, z], '#') == [x, x, y, y, z, z];
  }

  // ---- sample_key_frames ----

  /** One entry of a key-frame list: a time in the particle's life and a value. */
  datatype Key<V> = Key(time: real, value: V)

  /** Segment `i` holds `t`: `list[i].time <= t <= list[i + 1].time`. */
  predicate Brackets<V>(list: seq<Key<V>>, i: nat, t: real)
    requires i + 1 < |list|
  {
    list[i].time <= t <= list[i + 1].time
  }

  /** The first segment at or after `from` that holds `t`, if any. */
  function FirstBracket<V>(list: seq<Key<V>>, t: real, from: nat): (r: Option<nat>)
    ensures r.Some? ==> from <= r.value && r.value + 1 < |list| && Brackets(list, r.value, t)
    ensures r.Some? ==> forall j :: from <= j < r.value ==> !Brackets(list, j, t)
    ensures r.None? ==> forall j :: from <= j && j + 1 < |list| ==> !Brackets(list, j, t)
    decreases |list| - from
  {
    if from + 1 >= |list| then None
    else if Brackets(list, from, t) then Some(from)
    else FirstBracket(list, t, from + 1)
  }

  /** The pair of keys interpolated between: the first bracketing segment, else first and last. */
  function Segment<V>(list: seq<Key<V>>, t: real): (ab: (nat, nat))
    requires |list| >= 2
    ensures ab.0 < ab.1 < |list|
  {
    match FirstBracket(list, t, 0)
    case Some(i) => (i, i + 1)
    case None => (0, |list| - 1)
  }

  /** The search loop of `sample_key_frames`. */
  method FindSegment<V>(list: seq<Key<V>>, t: real) returns (a: nat, b: nat)
    requires |list| >= 2
    ensures (a, b) == Segment(list, t)
  {
    a, b := 0, |list| - 1;
    var i := 0;
    while i < |list| - 1
      invariant 0 <= i <= |list| - 1
      invariant FirstBracket(list, t, 0) == FirstBracket(list, t, i)
      invariant a == 0 && b == |list| - 1
    {
      if t >= list[i].time && t <= list[i + 1].time {
        a, b := i, i + 1;
        return;
      }
      i := i + 1;
    }
  }

  /** `(b.time - a.time) || 1e-6`. */
  function Span<V>(a: Key<V>, b: Key<V>): (s: real)
    ensures s != 0.0
  {
    if b.time - a.time == 0.0 then 0.000001 else b.time - a.time
  }

  /** The interpolation parameter `lt` of the chosen segment at (clamped) time `t`. */
  function Fraction<V>(list: seq<Key<V>>, t: real): real
    requires |list| >= 2
  {
    var (a, b) := Segment(list, t);
    (t - list[a].time) / Span(list[a], list[b])
  }

  /** `sample_key_frames` on a numeric list. */
  function NumberAt(list: seq<Key<real>>, t0: real): real {
    var t := Clamp(t0, 0.0, 1.0);
    if |list| == 0 then 0.0
    else if |list| == 1 then list[0].value
    else
      var (a, b) := Segment(list, t);
      Lerp(list[a].value, list[b].value, Fraction(list, t))
  }

  /** What the colour sampler yields: `0` for an empty list, otherwise a colour string. */
  datatype Tint = ZeroTint | HexTint(hex: string)

  /** The colour of the chosen segment: each channel interpolated and rounded separately. */
  function MixColors(a: string, b: string, lt: real): Rgb {
    var ca, cb := HexToRgb(a), HexToRgb(b);
    Rgb(Round(Lerp(ca.r as real, cb.r as real, lt)),
        Round(Lerp(ca.g as real, cb.g as real, lt)),
        Round(Lerp(ca.b as real, cb.b as real, lt)))
  }

  /** `sample_key_frames` on a colour list. */
  function ColorAt(list: seq<Key<string>>, t0: real): Tint {
    var t := Clamp(t0, 0.0, 1.0);
    if |list| == 0 then ZeroTint
    else if |list| == 1 then HexTint(list[0].value)
    else
      var (a, b) := Segment(list, t);
      HexTint(RgbToHex(MixColors(list[a].value, list[b].value, Fraction(list, t))))
  }

  /** `sample_key_frames` on a numeric list, with its search loop. */
  method SampleNumber(list: seq<Key<real>>, t0: real) returns (v: real)
    ensures v == NumberAt(list, t0)
  {
    var t := Clamp(t0, 0.0, 1.0);
    if |list| == 0 {
      return 0.0;
    }
    if |list| == 1 {
      return list[0].value;
    }
    var a, b := FindSegment(list, t);
    var lt := (t - list[a].time) / Span(list[a], list[b]);
    v := Lerp(list[a].value, list[b].value, lt);
  }

  /** `sample_key_frames` on a colour list, with its search loop. */
  method SampleColor(list: seq<Key<string>>, t0: real) returns (v: Tint)
    ensures v == ColorAt(list, t0)
  {
    var t := Clamp(t0, 0.0, 1.0);
    if |list| == 0 {
      return ZeroTint;
    }
    if |list| == 1 {
      return HexTint(list[0].value);
    }
    var a, b := FindSegment(list, t);
    var lt := (t - list[a].time) / Span(list[a], list[b]);
    assert lt == Fraction(list, t);
    v := HexTint(RgbToHex(MixColors(list[a].value, list[b].value, lt)));
  }

  // ---- properties of the sampler ----

  /** An empty list samples to 0 and a one-key list to its value, whatever the time. */
  lemma ShortLists(k: Key<real>, c: Key<string>, t: real)
    ensures NumberAt([], t) == 0.0 && NumberAt([k], t) == k.value
    ensures ColorAt([], t) == ZeroTint && ColorAt([c], t) == HexTint(c.value)
  {
  }

  /** `x / s` lies in [0, 1] when `0 <= x <= s`. */
  lemma UnitQuotient(x: real, s: real)
    requires 0.0 <= x <= s && 0.0 < s
    ensures 0.0 <= x / s <= 1.0
  {
    var q := x / s;
    assert q * s == x;
  }

  /** Inside a bracketing segment the parameter lies in [0, 1]: no extrapolation there. */
  lemma BracketedFraction<V>(list: seq<Key<V>>, t: real, i: nat)
    requires FirstBracket(list, t, 0) == Some(i)
    ensures 0.0 <= Fraction(list, t) <= 1.0
    ensures t == list[i].time ==> Fraction(list, t) == 0.0
    ensures t == list[i + 1].time && list[i].time < list[i + 1].time ==> Fraction(list, t) == 1.0
  {
    var a, b := list[i], list[i + 1];
    assert Segment(list, t) == (i, i + 1);
    if b.time - a.time == 0.0 {
      assert t - a.time == 0.0;
    } else {
      UnitQuotient(t - a.time, b.time - a.time);
    }
  }

  /**
   * When a segment brackets the clamped time, the numeric sample is the left value at the
   * left key's time, the right value at the right key's time, and between the two otherwise.
   */
  lemma NumberInSegment(list: seq<Key<real>>, t0: real, i: nat)
    requires FirstBracket(list, Clamp(t0, 0.0, 1.0), 0) == Some(i)
    ensures var t := Clamp(t0, 0.0, 1.0);
      t == list[i].time ==> NumberAt(list, t0) == list[i].value
    ensures var t := Clamp(t0, 0.0, 1.0);
      t == list[i + 1].time && list[i].time < list[i + 1].time ==> NumberAt(list, t0) == list[i + 1].value
    ensures Min(list[i].value, list[i + 1].value) <= NumberAt(list, t0) <= Max(list[i].value, list[i + 1].value)
  {
    var t := Clamp(t0, 0.0, 1.0);
    BracketedFraction(list, t, i);
    LerpBetween(list[i].value, list[i + 1].value, Fraction(list, t));
  }

  /** Key times strictly increasing inside [0, 1]. */
  predicate IncreasingTimes<V>(list: seq<Key<V>>) {
    (forall k :: 0 <= k < |list| ==> 0.0 <= list[k].time <= 1.0) &&
    (forall j, k :: 0 <= j < k < |list| ==> list[j].time < list[k].time)
  }

  /** With increasing key times, sampling at a key's time gives that key's value. */
  lemma PassesThroughKeys(list: seq<Key<real>>, k: nat)
    requires IncreasingTimes(list) && k < |list|
    ensures NumberAt(list, list[k].time) == list[k].value
  {
    var t := list[k].time;
    assert Clamp(t, 0.0, 1.0) == t;
    if |list| >= 2 {
      if k == 0 {
        assert Brackets(list, 0, t);
        assert FirstBracket(list, t, 0) == Some(0);
        NumberInSegment(list, t, 0);
      } else {
        assert Brackets(list, k - 1, t);
        var r := FirstBracket(list, t, 0);
        assert r.Some? && r.value == k - 1;
        NumberInSegment(list, t, k - 1);
      }
    }
  }

  /**
   * A time in [0, 1] that no segment brackets uses the first and last keys and so
   * extrapolates along the line through them.
   */
  lemma Extrapolates(list: seq<Key<real>>, t: real)
    requires |list| >= 2 && 0.0 <= t <= 1.0
    requires forall j :: 0 <= j && j + 1 < |list| ==> !Brackets(list, j, t)
    ensures var first, last := list[0], list[|list| - 1];
      NumberAt(list, t) == Lerp(first.value, last.value, (t - first.time) / Span(first, last))
  {
    assert FirstBracket(list, t, 0) == None;
    assert Clamp(t, 0.0, 1.0) == t;
  }

  /** When the first and last keys share a time, the span `1e-6` scales the distance by a million. */
  lemma ZeroSpanExtrapolates(list: seq<Key<real>>, t: real)
    requires |list| >= 2 && 0.0 <= t <= 1.0 && list[0].time == list[|list| - 1].time
    requires forall j :: 0 <= j && j + 1 < |list| ==> !Brackets(list, j, t)
    ensures var first, last := list[0], list[|list| - 1];
      NumberAt(list, t) == Lerp(first.value, last.value, (t - first.time) * 1000000.0)
  {
    Extrapolates(list, t);
    assert Span(list[0], list[|list| - 1]) == 0.000001;
  }

  /** A rounded interpolation between two bytes is a byte. */
  lemma RoundedLerpByte(x: int, y: int, lt: real)
    requires 0 <= x < 256 && 0 <= y < 256 && 0.0 <= lt <= 1.0
    ensures 0 <= Round(Lerp(x as real, y as real, lt)) < 256
  {
    LerpBetween(x as real, y as real, lt);
  }

  /**
   * Inside a bracketing segment every channel stays a byte, so the sampled colour is
   * `#` and six lower-case hexadecimal digits.
   */
  lemma ColorInSegment(list: seq<Key<string>>, t0: real, i: nat)
    requires FirstBracket(list, Clamp(t0, 0.0, 1.0), 0) == Some(i)
    ensures ColorAt(list, t0).HexTint?
    ensures var s := ColorAt(list, t0).hex;
      |s| == 7 && s[0] == '#' && AllLowerHex(s[1..])
  {
    var t := Clamp(t0, 0.0, 1.0);
    BracketedFraction(list, t, i);
    var lt := Fraction(list, t);
    var ca, cb := HexToRgb(list[i].value), HexToRgb(list[i + 1].value);
    RoundedLerpByte(ca.r, cb.r, lt);
    RoundedLerpByte(ca.g, cb.g, lt);
    RoundedLerpByte(ca.b, cb.b, lt);
    RgbToHexShape(MixColors(list[i].value, list[i + 1].value, lt));
  }

  /**
   * Between two colours keyed at times 0 and 1, each channel is interpolated on its own
   * and rounded half up: black to white at 0.5 gives channels of 128.
   */
  lemma ChannelsMixSeparately(list: seq<Key<string>>, ca: Rgb, cb: Rgb, t: real)
    requires |list| == 2 && list[0].time == 0.0 && list[1].time == 1.0
    requires list[0].value == RgbToHex(ca) && list[1].value == RgbToHex(cb)
    requires InRange(ca) && InRange(cb) && 0.0 <= t <= 1.0
    ensures ColorAt(list, t)
         == HexTint(RgbToHex(Rgb(Round(Lerp(ca.r as real, cb.r as real, t)),
                                 Round(Lerp(ca.g as real, cb.g as real, t)),
                                 Round(Lerp(ca.b as real, cb.b as real, t)))))
  {
    var m := Rgb(Round(Lerp(ca.r as real, cb.r as real, t)),
                 Round(Lerp(ca.g as real, cb.g as real, t)),
                 Round(Lerp(ca.b as real, cb.b as real, t)));
    assert MixColors(list[0].value, list[1].value, t) == m by {
      HexRoundTrip(ca);
      HexRoundTrip(cb);
    }
    assert Brackets(list, 0, t);
    assert FirstBracket(list, t, 0) == Some(0);
    WholeLifeSegment(list, t, m);
  }

  lemma WholeLifeSegment(list: seq<Key<string>>, t: real, m: Rgb)
    requires |list| == 2 && list[0].time == 0.0 && list[1].time == 1.0 && 0.0 <= t <= 1.0
    requires FirstBracket(list, t, 0) == Some(0)
    requires MixColors(list[0].value, list[1].value, t) == m
    ensures ColorAt(list, t) == HexTint(RgbToHex(m))
  {
    assert Clamp(t, 0.0, 1.0) == t;
    UnitFraction(list, t);
    ColorAtSegment(list, t);
  }

  /** On a list keyed at 0 and 1 the first segment is the whole life and `lt` is the time itself. */
  lemma UnitFraction<V>(list: seq<Key<V>>, t: real)
    requires |list| == 2 && list[0].time == 0.0 && list[1].time == 1.0
    requires FirstBracket(list, t, 0) == Some(0)
    ensures Segment(list, t) == (0, 1) && Fraction(list, t) == t
  {
    assert Span(list[0], list[1]) == 1.0;
  }

  /** The colour sampler on two or more keys, in terms of the chosen segment. */
  lemma ColorAtSegment(list: seq<Key<string>>, t0: real)
    requires |list| >= 2
    ensures var t := Clamp(t0, 0.0, 1.0);
      var (a, b) := Segment(list, t);
      ColorAt(list, t0) == HexTint(RgbToHex(MixColors(list[a].value, list[b].value, Fraction(list, t))))
  {
  }
}
