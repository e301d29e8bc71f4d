/** CSS colour strings and 24-bit colour integers (src/color_utils.ts). */
module ColorUtils {
  import opened Numeric
  import opened JsText
  import opened Wrappers

  /** A JavaScript number result that may be `NaN`; every non-NaN result here is an integer. */
  datatype NumberResult = Value(n: int) | NaN

  const WHITE: int := 0xFF_FFFF

  /** `color | 0`, clamped into [0, 0xFFFFFF]; the final `& 0xFFFFFF` changes nothing in that range. */
  function ColorBits(color: real): (v: int)
    ensures 0 <= v <= WHITE
    ensures ToInt32(color) < 0 ==> v == 0
    ensures WHITE < ToInt32(color) ==> v == WHITE
    ensures 0 <= ToInt32(color) <= WHITE ==> v == ToInt32(color)
  {
    var n := ToInt32(color);
    if n < 0 then 0 else if n > WHITE then WHITE else n
  }

  /** `hex_to_string`: `'#'` followed by exactly six lower-case hexadecimal digits. */
  function HexToString(color: real): (r: string)
    ensures |r| == 7 && r[0] == '#' && AllLowerHex(r[1..]) && AllHex(r[1..])
    ensures HexValue(r[1..]) == ColorBits(color)
  {
    var v := ColorBits(color);
    PaddedHex(v, 6);
    var r := "#" + PadStart(NatToHex(v), 6, '0');
    assert r[1..] == PadStart(NatToHex(v), 6, '0');
    r
  }

  /** `Number("0x" + hex)`: a hexadecimal literal with no sign and at least one digit. */
  function NumberFromHexLiteral(hex: string): (r: NumberResult)
    ensures r.Value? <==> hex != [] && AllHex(hex)
  {
    if hex != [] && AllHex(hex) then Value(HexValue(hex)) else NaN
  }

  /** `#RGB` shorthand expanded to `#RRGGBB`. */
  function ExpandShorthand(hex: string): (r: string)
    ensures |hex| == 3 ==> |r| == 6 && forall i :: 0 <= i < 6 ==> r[i] == hex[i / 2]
    ensures |hex| != 3 ==> r == hex
  {
    if |hex| == 3 then [hex[0], hex[0], hex[1], hex[1], hex[2], hex[2]] else hex
  }

  predicate IsDecDigit(c: char) { '0' <= c <= '9' }

  predicate AllDec(d: string) {
    forall i :: 0 <= i < |d| ==> IsDecDigit(d[i])
  }

  /** The longest prefix of decimal digits. */
  function DecPrefix(s: string): (p: string)
    ensures p <= s && AllDec(p)
    ensures |p| < |s| ==> !IsDecDigit(s[|p|])
  {
    if s != [] && IsDecDigit(s[0]) then [s[0]] + DecPrefix(s[1..]) else []
  }

  /** `parseInt(d, 10)` on a string of decimal digits. */
  function DecValue(d: string): nat
    requires AllDec(d)
  {
    if d == [] then 0 else DecValue(d[..|d| - 1]) * 10 + (d[|d| - 1] as int - '0' as int)
  }

  function Lower(c: char): char {
    if 'A' <= c <= 'Z' then (c as int - 'A' as int + 'a' as int) as char else c
  }

  /** `\s*` then the character `c`: the text after `c`. */
  function Expect(c: char, s: string): (r: Option<string>)
    ensures r.Some? ==> |r.value| < |s|
  {
    var a := TrimStart(s);
    if a != [] && a[0] == c then Some(a[1..]) else None
  }

  /** One `\s*(\d{1,3})` group of the `rgb(...)` pattern: its value and the text after it. */
  function Component(s: string): (r: Option<(nat, string)>)
    ensures r.Some? ==> |r.value.1| < |s|
  {
    var a := TrimStart(s);
    var d := DecPrefix(a);
    if 1 <= |d| <= 3 then Some((DecValue(d), a[|d|..])) else None
  }

  /**
   * The pattern `^rgb\s*\(\s*(\d{1,3})\s*,\s*(\d{1,3})\s*,\s*(\d{1,3})\s*\)$`, case-insensitive:
   * the three component values, or `None` when the string does not match.
   */
  function MatchRgb(s: string): Option<(nat, nat, nat)> {
    if |s| < 3 || Lower(s[0]) != 'r' || Lower(s[1]) != 'g' || Lower(s[2]) != 'b' then None
    else
      var a :- Expect('(', s[3..]);
      RgbArgs(a)
  }

  /** The three components after `(`: red, then the rest. */
  function RgbArgs(a: string): Option<(nat, nat, nat)> {
    var r :- Component(a);
    var b :- Expect(',', r.1);
    RgbGreenBlue(r.0, b)
  }

  function RgbGreenBlue(red: nat, b: string): Option<(nat, nat, nat)> {
    var g :- Component(b);
    var c :- Expect(',', g.1);
    RgbBlue(red, g.0, c)
  }

  function RgbBlue(red: nat, green: nat, c: string): Option<(nat, nat, nat)> {
    var bl :- Component(c);
    var e :- Expect(')', bl.1);
    if e == [] then Some((red, green, bl.0)) else None
  }

  /** `string_to_hex`. */
  function StringToHex(color: string): NumberResult {
    var c := Trim(color);
    if c != [] && c[0] == '#' then NumberFromHexLiteral(ExpandShorthand(c[1..]))
    else RgbNumber(MatchRgb(c))
  }

  /** `(r << 16) + (g << 8) + b` for a matched `rgb(...)`, and 0 when nothing matched. */
  function RgbNumber(m: Option<(nat, nat, nat)>): (r: NumberResult)
    ensures r.Value? && 0 <= r.n
    ensures m.None? ==> r.n == 0
  {
    match m
    case Some((r, g, b)) => Value(RgbValue(r, g, b))
    case None => Value(0)
  }

  /** `(r << 16) + (g << 8) + b`, with no clamping of the components. */
  function RgbValue(r: nat, g: nat, b: nat): nat {
    r * 0x1_0000 + g * 0x100 + b
  }

  // ---- properties ----

  /** Every integer colour in range survives formatting and parsing. */
  lemma RoundTrip(c: int)
    requires 0 <= c <= WHITE
    ensures StringToHex(HexToString(c as real)) == Value(c)
  {
    var s := HexToString(c as real);
    assert ColorBits(c as real) == c;
    assert IsHexDigit(s[6]) && !IsSpace(s[6]);
    StringToHexByHash(s);
  }

  /** A negative colour (after `| 0`) prints as black, one above 0xFFFFFF as white. */
  lemma OutOfRangeColours(color: real)
    ensures ToInt32(color) < 0 ==> HexToString(color) == "#000000"
    ensures WHITE < ToInt32(color) ==> HexToString(color) == "#ffffff"
  {
    var v := ColorBits(color);
    assert HexToString(color) == "#" + PadStart(NatToHex(v), 6, '0');
    if v == 0 {
      PaddedBlack();
    } else if v == WHITE {
      NatToHexWhite();
    }
  }

  lemma PaddedBlack()
    ensures PadStart(NatToHex(0), 6, '0') == "000000"
  {
    assert NatToHex(0) == "0";
    assert Repeat('0', 5) == "00000";
  }

  lemma NatToHexWhite()
    ensures NatToHex(WHITE) == "ffffff"
  {
    assert NatToHex(15) == "f";
    assert NatToHex(0xFF) == "ff";
    assert NatToHex(0xFFF) == "fff";
    assert NatToHex(0xFFFF) == "ffff";
    assert NatToHex(0xF_FFFF) == "fffff";
  }

  /** Leading and trailing white space is ignored. */
  lemma IgnoresSurroundingSpace(w1: string, s: string, w2: string)
    requires AllSpace(w1) && AllSpace(w2)
    ensures StringToHex(w1 + s + w2) == StringToHex(s)
  {
    TrimIgnoresSurroundingSpace(w1, s, w2);
  }

  /** A string with no surrounding space that starts with `#` is read as a hexadecimal literal. */
  lemma StringToHexByHash(s: string)
    requires s != [] && s[0] == '#' && !IsSpace(s[|s| - 1])
    ensures StringToHex(s) == NumberFromHexLiteral(ExpandShorthand(s[1..]))
  {
    TrimUnpadded(s);
  }

  /** `#RGB` parses to the same number as `#RRGGBB`. */
  lemma ShorthandMatchesLongForm(r: char, g: char, b: char)
    requires !IsSpace(r) && !IsSpace(b)
    ensures StringToHex(['#', r, g, b]) == StringToHex(['#', r, r, g, g, b, b])
  {
    var short, long := ['#', r, g, b], ['#', r, r, g, g, b, b];
    assert short[1..] == [r, g, b];
    assert long[1..] == [r, r, g, g, b, b];
    StringToHexByHash(short);
    StringToHexByHash(long);
  }

  /** A `#` form with a character that is not a hexadecimal digit is `NaN`. */
  lemma NonHexIsNaN(hex: string, i: nat)
    requires i < |hex| && !IsHexDigit(hex[i]) && |hex| != 3
    requires !IsSpace(hex[|hex| - 1])
    ensures StringToHex("#" + hex) == NaN
  {
    var s := "#" + hex;
    assert s[1..] == hex;
    StringToHexByHash(s);
  }

  /** A run of digits followed by a non-digit is the whole digit prefix. */
  lemma {:induction false} DecPrefixOfDigits(d: string, rest: string)
    requires AllDec(d)
    requires rest == [] || !IsDecDigit(rest[0])
    ensures DecPrefix(d + rest) == d
  {
    if d != [] {
      assert (d + rest)[1..] == d[1..] + rest;
      DecPrefixOfDigits(d[1..], rest);
    } else {
      assert d + rest == rest;
    }
  }

  /** One to three digits, then a non-digit: the group matches with that value. */
  lemma ComponentOfDigits(d: string, rest: string)
    requires 1 <= |d| <= 3 && AllDec(d)
    requires rest == [] || !IsDecDigit(rest[0])
    ensures Component(d + rest) == Some((DecValue(d), rest))
  {
    assert TrimStart(d + rest) == d + rest by { assert (d + rest)[0] == d[0]; }
    DecPrefixOfDigits(d, rest);
    assert (d + rest)[|d|..] == rest;
  }

  /** Four or more digits do not match `\d{1,3}` followed by a separator. */
  lemma ComponentTooLong(d: string, rest: string)
    requires 4 <= |d| && AllDec(d)
    requires rest == [] || !IsDecDigit(rest[0])
    ensures Component(d + rest) == None
  {
    assert TrimStart(d + rest) == d + rest by { assert (d + rest)[0] == d[0]; }
    DecPrefixOfDigits(d, rest);
  }

  /** A three-letter keyword that reads `rgb` when lower-cased. */
  predicate RgbKeyword(kw: string) {
    |kw| == 3 && Lower(kw[0]) == 'r' && Lower(kw[1]) == 'g' && Lower(kw[2]) == 'b'
  }

  /** `\s*` then `c` matches a string that starts with `c` itself. */
  lemma ExpectAtStart(c: char, t: string)
    requires !IsSpace(c)
    ensures Expect(c, [c] + t) == Some(t)
  {
    assert TrimStart([c] + t) == [c] + t;
    assert ([c] + t)[1..] == t;
  }

  /** After the keyword and `(`, matching continues with the components. */
  lemma MatchRgbAfterKeyword(kw: string, t: string)
    requires RgbKeyword(kw)
    ensures MatchRgb(kw + "(" + t) == RgbArgs(t)
  {
    var s := kw + "(" + t;
    assert s[0] == kw[0] && s[1] == kw[1] && s[2] == kw[2];
    assert s[3..] == "(" + t;
    ExpectAtStart('(', t);
  }

  /** A string with no surrounding space and no leading `#` is read by the `rgb` pattern. */
  lemma StringToHexByRgb(s: string)
    requires s != [] && s[0] != '#' && !IsSpace(s[0]) && !IsSpace(s[|s| - 1])
    ensures StringToHex(s) == RgbNumber(MatchRgb(s))
  {
    TrimUnpadded(s);
  }

  lemma RgbBlueOfDigits(red: nat, green: nat, db: string)
    requires 1 <= |db| <= 3 && AllDec(db)
    ensures RgbBlue(red, green, db + ")") == Some((red, green, DecValue(db)))
  {
    ComponentOfDigits(db, ")");
    ExpectAtStart(')', []);
  }

  lemma RgbGreenBlueOfDigits(red: nat, dg: string, db: string)
    requires 1 <= |dg| <= 3 && AllDec(dg)
    requires 1 <= |db| <= 3 && AllDec(db)
    ensures RgbGreenBlue(red, dg + ("," + (db + ")"))) == Some((red, DecValue(dg), DecValue(db)))
  {
    var t3 := db + ")";
    ComponentOfDigits(dg, "," + t3);
    ExpectAtStart(',', t3);
    RgbBlueOfDigits(red, DecValue(dg), db);
  }

  /** The three comma-separated components and the closing parenthesis. */
  lemma RgbArgsOfDigits(dr: string, dg: string, db: string)
    requires 1 <= |dr| <= 3 && AllDec(dr)
    requires 1 <= |dg| <= 3 && AllDec(dg)
    requires 1 <= |db| <= 3 && AllDec(db)
    ensures RgbArgs(dr + ("," + (dg + ("," + (db + ")")))))
         == Some((DecValue(dr), DecValue(dg), DecValue(db)))
  {
    var t2 := dg + ("," + (db + ")"));
    ComponentOfDigits(dr, "," + t2);
    ExpectAtStart(',', t2);
    RgbGreenBlueOfDigits(DecValue(dr), dg, db);
  }

  /** After a keyword reading `rgb` and `(`, the result is that of the component pattern. */
  lemma RgbAfterKeyword(kw: string, t: string)
    requires RgbKeyword(kw)
    requires t != [] && !IsSpace(t[|t| - 1])
    ensures StringToHex(kw + "(" + t) == RgbNumber(RgbArgs(t))
  {
    var s := kw + "(" + t;
    assert s[0] == kw[0] && (kw[0] == 'r' || kw[0] == 'R');
    assert s[|s| - 1] == t[|t| - 1];
    StringToHexByRgb(s);
    MatchRgbAfterKeyword(kw, t);
  }

  /**
   * `rgb(r,g,b)` in any letter case, each component of one to three digits,
   * gives `(r << 16) + (g << 8) + b`; components above 255 are not clamped.
   */
  lemma RgbComponents(kw: string, dr: string, dg: string, db: string)
    requires RgbKeyword(kw)
    requires 1 <= |dr| <= 3 && AllDec(dr)
    requires 1 <= |dg| <= 3 && AllDec(dg)
    requires 1 <= |db| <= 3 && AllDec(db)
    ensures StringToHex(kw + "(" + (dr + ("," + (dg + ("," + (db + ")"))))))
         == Value(RgbValue(DecValue(dr), DecValue(dg), DecValue(db)))
  {
    var t1 := dr + ("," + (dg + ("," + (db + ")"))));
    var v := (DecValue(dr), DecValue(dg), DecValue(db));
    assert StringToHex(kw + "(" + t1) == RgbNumber(Some(v)) by {
      RgbArgsOfDigits(dr, dg, db);
      assert t1[|t1| - 1] == ')';
      RgbAfterKeyword(kw, t1);
    }
  }

  /** A first component of four or more digits does not match, and the result is 0. */
  lemma RgbComponentTooLong(kw: string, dr: string, tail: string)
    requires RgbKeyword(kw)
    requires 4 <= |dr| && AllDec(dr)
    requires tail != [] && !IsDecDigit(tail[0]) && !IsSpace(tail[|tail| - 1])
    ensures StringToHex(kw + "(" + (dr + tail)) == Value(0)
  {
    ComponentTooLong(dr, tail);
    RgbAfterKeyword(kw, dr + tail);
  }

  /**
   * A string whose trimmed form starts with neither `#` nor `rgb` (in any case), such as a
   * colour name, gives 0.
   */
  lemma ColourNameIsZero(color: string)
    requires var c := Trim(color);
      (c == [] || c[0] != '#') && (|c| < 3 || Lower(c[0]) != 'r' || Lower(c[1]) != 'g' || Lower(c[2]) != 'b')
    ensures StringToHex(color) == Value(0)
  {
  }
}
