/**
 * The pieces of JavaScript string handling the colour and path helpers rely on:
 * white space and `trim`, hexadecimal digits, `Number.prototype.toString(16)`,
 * `String.prototype.padStart` and `parseInt(s, 16)`.
 */
module JsText {
  import opened Wrappers

  /** ECMAScript WhiteSpace and LineTerminator code points (what `trim` and `\s` remove). */
  predicate IsSpace(c: char) {
    c == '\t' || c == '\n' || c == '\U{B}' || c == '\U{C}' || c == '\r' || c == ' '
    || c == '\U{A0}' || c == '\U{1680}' || ('\U{2000}' <= c <= '\U{200A}')
    || c == '\U{2028}' || c == '\U{2029}' || c == '\U{202F}' || c == '\U{205F}'
    || c == '\U{3000}' || c == '\U{FEFF}'
  }

  function TrimStart(s: string): (r: string)
    ensures |r| <= |s| && r == s[|s| - |r|..]
    ensures r == [] || !IsSpace(r[0])
    ensures forall i :: 0 <= i < |s| - |r| ==> IsSpace(s[i])
  {
    if s != [] && IsSpace(s[0]) then TrimStart(s[1..]) else s
  }

  function TrimEnd(s: string): (r: string)
    ensures |r| <= |s| && r == s[..|r|]
    ensures r == [] || !IsSpace(r[|r| - 1])
    ensures forall i :: |r| <= i < |s| ==> IsSpace(s[i])
  {
    if s != [] && IsSpace(s[|s| - 1]) then TrimEnd(s[..|s| - 1]) else s
  }

  /** `String.prototype.trim`. */
  function Trim(s: string): string {
    TrimEnd(TrimStart(s))
  }

  /** A string that neither starts nor ends with white space is its own trim. */
  lemma TrimUnpadded(s: string)
    requires s != [] && !IsSpace(s[0]) && !IsSpace(s[|s| - 1])
    ensures TrimStart(s) == s && Trim(s) == s
  {
  }

  predicate AllSpace(w: string) {
    forall i :: 0 <= i < |w| ==> IsSpace(w[i])
  }

  lemma {:induction false} TrimStartSkipsSpace(w: string, s: string)
    requires AllSpace(w)
    ensures TrimStart(w + s) == TrimStart(s)
  {
    if w != [] {
      assert (w + s)[1..] == w[1..] + s;
      TrimStartSkipsSpace(w[1..], s);
    } else {
      assert w + s == s;
    }
  }

  lemma {:induction false} TrimEndSkipsSpace(s: string, w: string)
    requires AllSpace(w)
    ensures TrimEnd(s + w) == TrimEnd(s)
  {
    if w != [] {
      assert (s + w)[..|s + w| - 1] == s + w[..|w| - 1];
      TrimEndSkipsSpace(s, w[..|w| - 1]);
    } else {
      assert s + w == s;
    }
  }

  /** Surrounding white space does not change what `trim` returns. */
  lemma TrimIgnoresSurroundingSpace(w1: string, s: string, w2: string)
    requires AllSpace(w1) && AllSpace(w2)
    ensures Trim(w1 + s + w2) == Trim(s)
  {
    TrimStartSkipsSpace(w1, s + w2);
    assert w1 + s + w2 == w1 + (s + w2);
    TrimStartAppend(s, w2);
    var t := TrimStart(s);
    if t == [] {
      assert TrimStart(s + w2) == TrimStart(w2) || TrimStart(s + w2) == t + w2;
      TrimEndSkipsSpace([], TrimStart(s + w2));
    } else {
      TrimEndSkipsSpace(t, w2);
    }
  }

  /** Trimming the front of `s + w` trims the front of `s`, unless `s` is all space. */
  lemma {:induction false} TrimStartAppend(s: string, w: string)
    requires AllSpace(w)
    ensures TrimStart(s) != [] ==> TrimStart(s + w) == TrimStart(s) + w
    ensures TrimStart(s) == [] ==> AllSpace(TrimStart(s + w))
  {
    if s == [] {
      assert s + w == w;
    } else if IsSpace(s[0]) {
      assert (s + w)[1..] == s[1..] + w;
      TrimStartAppend(s[1..], w);
    } else {
      assert (s + w)[0] == s[0];
    }
  }

  // ---- hexadecimal digits ----

  predicate IsHexDigit(c: char) {
    ('0' <= c <= '9') || ('a' <= c <= 'f') || ('A' <= c <= 'F')
  }

  /** The digits `Number.prototype.toString(16)` produces. */
  predicate IsLowerHexDigit(c: char) {
    ('0' <= c <= '9') || ('a' <= c <= 'f')
  }

  predicate AllHex(s: string) {
    forall i :: 0 <= i < |s| ==> IsHexDigit(s[i])
  }

  predicate AllLowerHex(s: string) {
    forall i :: 0 <= i < |s| ==> IsLowerHexDigit(s[i])
  }

  function DigitValue(c: char): (d: nat)
    requires IsHexDigit(c)
    ensures d < 16
  {
    if '0' <= c <= '9' then (c - '0') as nat
    else if 'a' <= c <= 'f' then (c - 'a') as nat + 10
    else (c - 'A') as nat + 10
  }

  function Digit(d: nat): (c: char)
    requires d < 16
    ensures IsLowerHexDigit(c) && IsHexDigit(c) && DigitValue(c) == d
  {
    if d < 10 then '0' + d as char else 'a' + (d - 10) as char
  }

  function Pow16(k: nat): (p: nat)
    ensures p >= 1
  {
    if k == 0 then 1 else 16 * Pow16(k - 1)
  }

  /** The value of a string of hexadecimal digits, most significant first. */
  function HexValue(s: string): (v: nat)
    requires AllHex(s)
    ensures v < Pow16(|s|)
  {
    if s == [] then 0 else HexValue(s[..|s| - 1]) * 16 + DigitValue(s[|s| - 1])
  }

  lemma {:induction false} HexValueAppend(s: string, t: string)
    requires AllHex(s) && AllHex(t)
    ensures AllHex(s + t)
    ensures HexValue(s + t) == HexValue(s) * Pow16(|t|) + HexValue(t)
  {
    if t == [] {
      assert s + t == s;
    } else {
      var t' := t[..|t| - 1];
      assert (s + t)[..|s + t| - 1] == s + t';
      HexValueAppend(s, t');
      var a, p, h, d := HexValue(s), Pow16(|t'|), HexValue(t'), DigitValue(t[|t| - 1]);
      assert HexValue(s + t) == HexValue(s + t') * 16 + d by {
        assert (s + t)[|s + t| - 1] == t[|t| - 1];
      }
      assert HexValue(t) == h * 16 + d by { assert t[..|t| - 1] == t'; }
      assert Pow16(|t|) == 16 * p;
      MulShift(a, p, h);
    }
  }

  lemma MulShift(a: nat, p: nat, h: nat)
    ensures (a * p + h) * 16 == a * (16 * p) + h * 16
  {
  }

  /** Leading zeros do not change a hexadecimal value. */
  lemma {:induction false} HexValueLeadingZeros(k: nat, s: string)
    requires AllHex(s)
    ensures AllHex(Repeat('0', k) + s) && HexValue(Repeat('0', k) + s) == HexValue(s)
  {
    HexValueAppend(Repeat('0', k), s);
    ZerosValue(k);
  }

  lemma {:induction false} ZerosValue(k: nat)
    ensures AllHex(Repeat('0', k)) && HexValue(Repeat('0', k)) == 0
  {
    if k > 0 {
      assert Repeat('0', k)[..k - 1] == Repeat('0', k - 1);
      ZerosValue(k - 1);
    }
  }

  function Repeat(c: char, k: nat): (r: string)
    ensures |r| == k && forall i :: 0 <= i < k ==> r[i] == c
  {
    if k == 0 then [] else Repeat(c, k - 1) + [c]
  }

  /** `n.toString(16)` for a non-negative integer: lower-case digits, no leading zero. */
  function NatToHex(n: nat): (s: string)
    ensures 1 <= |s| && AllLowerHex(s) && AllHex(s)
    ensures HexValue(s) == n
    ensures n >= 16 ==> s[0] != '0'
    decreases n
  {
    if n < 16 then [Digit(n)]
    else
      var s := NatToHex(n / 16) + [Digit(n % 16)];
      assert s[..|s| - 1] == NatToHex(n / 16);
      s
  }

  lemma {:induction false} NatToHexLength(n: nat, k: nat)
    requires 1 <= k && n < Pow16(k)
    ensures |NatToHex(n)| <= k
    decreases k
  {
    if n >= 16 {
      assert k >= 2;
      NatToHexLength(n / 16, k - 1);
    }
  }

  /** `String.prototype.padStart(width, c)` with a one-character filler. */
  function PadStart(s: string, width: nat, c: char): (r: string)
    ensures |s| >= width ==> r == s
    ensures |s| < width ==> r == Repeat(c, width - |s|) + s
  {
    if |s| >= width then s else Repeat(c, width - |s|) + s
  }

  /** `n.toString(16).padStart(width, "0")`: exactly `width` digits when `n` fits. */
  lemma {:induction false} PaddedHex(n: nat, width: nat)
    requires 1 <= width && n < Pow16(width)
    ensures |PadStart(NatToHex(n), width, '0')| == width
    ensures AllLowerHex(PadStart(NatToHex(n), width, '0'))
    ensures AllHex(PadStart(NatToHex(n), width, '0'))
    ensures HexValue(PadStart(NatToHex(n), width, '0')) == n
  {
    NatToHexLength(n, width);
    var s := NatToHex(n);
    if |s| < width {
      var z := Repeat('0', width - |s|);
      assert PadStart(s, width, '0') == z + s;
      HexValueLeadingZeros(width - |s|, s);
      assert AllLowerHex(z + s) by {
        forall i | 0 <= i < |z + s| ensures IsLowerHexDigit((z + s)[i]) {
          if i < |z| { assert (z + s)[i] == '0'; } else { assert (z + s)[i] == s[i - |z|]; }
        }
      }
    }
  }

  /** `v.toString(16)` for an integer `v`. */
  function IntToHex(v: int): string {
    if v < 0 then "-" + NatToHex(-v) else NatToHex(v)
  }

  // ---- parseInt(s, 16) ----

  /** The longest prefix of `s` made of hexadecimal digits. */
  function HexPrefix(s: string): (p: string)
    ensures AllHex(p) && p <= s
    ensures |p| < |s| ==> !IsHexDigit(s[|p|])
  {
    if s != [] && IsHexDigit(s[0]) then [s[0]] + HexPrefix(s[1..]) else []
  }

  /**
   * `parseInt(s, 16)`: leading white space, an optional sign, an optional `0x`/`0X`,
   * then the longest run of hexadecimal digits; `None` is `NaN` (no digit found).
   */
  function ParseIntHex(s: string): Option<int> {
    var a := TrimStart(s);
    var neg := a != [] && a[0] == '-';
    var b := if a != [] && (a[0] == '-' || a[0] == '+') then a[1..] else a;
    var c := if |b| >= 2 && b[0] == '0' && (b[1] == 'x' || b[1] == 'X') then b[2..] else b;
    var digits := HexPrefix(c);
    if digits == [] then None
    else
      var v: int := HexValue(digits);
      if neg then Some(-v) else Some(v)
  }

  /** On a non-empty string of hexadecimal digits `parseInt` returns their value. */
  lemma ParseIntHexOfDigits(s: string)
    requires AllHex(s) && s != []
    ensures ParseIntHex(s) == Some(HexValue(s))
  {
    assert IsHexDigit(s[0]) && !IsSpace(s[0]);
    assert TrimStart(s) == s;
    assert s[0] != '-' && s[0] != '+';
    assert |s| >= 2 ==> IsHexDigit(s[1]) && s[1] != 'x' && s[1] != 'X';
    HexPrefixOfHex(s);
  }

  lemma {:induction false} HexPrefixOfHex(s: string)
    requires AllHex(s)
    ensures HexPrefix(s) == s
  {
    if s != [] {
      HexPrefixOfHex(s[1..]);
    }
  }
}
