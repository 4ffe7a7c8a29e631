/**
 * The colour codec of the control panel: `rgbToHex` turns a colour into the
 * `#rrggbb` string the colour picker shows, and `hexToRgb` turns the
 * picker's string back into a colour, or null when it is not one.
 */
module HexColor {
  import opened Wrappers
  import opened Json

  /** A colour as the panel holds it: `{r, g, b}`. */
  datatype Rgb = Rgb(r: Byte, g: Byte, b: Byte)

  /** A character the regular expression class `[a-f\d]` matches under the `i` flag. */
  predicate IsHexDigit(c: char) {
    '0' <= c <= '9' || 'a' <= c <= 'f' || 'A' <= c <= 'F'
  }

  /** A digit as `Number.prototype.toString(16)` writes it. */
  predicate IsLowerHexDigit(c: char) {
    IsHexDigit(c) && !('A' <= c <= 'F')
  }

  predicate AllHex(s: string) {
    forall i :: 0 <= i < |s| ==> IsHexDigit(s[i])
  }

  predicate AllLowerHex(s: string) {
    forall i :: 0 <= i < |s| ==> IsLowerHexDigit(s[i])
  }

  /** The value of one hexadecimal digit, in either case. */
  function DigitValue(c: char): (v: nat)
    requires IsHexDigit(c)
    ensures v < 16
  {
    if '0' <= c <= '9' then c as int - '0' as int
    else if 'a' <= c <= 'f' then c as int - 'a' as int + 10
    else c as int - 'A' as int + 10
  }

  /** The lower-case digit for a value below 16. */
  function HexDigit(d: nat): (c: char)
    requires d < 16
    ensures IsLowerHexDigit(c) && DigitValue(c) == d
  {
    if d < 10 then ('0' as int + d) as char else ('a' as int + d - 10) as char
  }

  /** `parseInt(s, 16)` on a non-empty string of hexadecimal digits (0 on the empty one). */
  function ParseHex(s: string): nat
    requires AllHex(s)
    decreases |s|
  {
    if s == [] then 0 else ParseHex(s[..|s| - 1]) * 16 + DigitValue(s[|s| - 1])
  }

  /**
   * `x.toString(16)` for a non-negative integer: the shortest lower-case
   * hexadecimal numeral, which `parseInt(_, 16)` reads back as `x`.
   */
  function ToHex(x: nat): (s: string)
    ensures |s| >= 1 && AllLowerHex(s) && AllHex(s)
    ensures ParseHex(s) == x
    ensures |s| == 1 <==> x < 16
    ensures |s| > 1 ==> s[0] != '0'
    ensures x < 256 ==> |s| <= 2
    decreases x
  {
    if x < 16 then [HexDigit(x)]
    else
      var high := ToHex(x / 16);
      var s := high + [HexDigit(x % 16)];
      assert s[..|s| - 1] == high;
      s
  }

  /** `parseInt` of a group of two hexadecimal digits, `hi` then `lo`. */
  function Pair(hi: char, lo: char): Byte
    requires IsHexDigit(hi) && IsHexDigit(lo)
  {
    16 * DigitValue(hi) + DigitValue(lo)
  }

  lemma PairIsParseHex(hi: char, lo: char)
    requires IsHexDigit(hi) && IsHexDigit(lo)
    ensures ParseHex([hi, lo]) == Pair(hi, lo)
  {
    assert [hi][..0] == [];
    assert ParseHex([hi]) == DigitValue(hi);
    assert [hi, lo][..1] == [hi];
  }

  /** One channel of `rgbToHex`: `toString(16)`, with a `'0'` in front when it is one digit long. */
  function Channel(x: Byte): (s: string)
    ensures |s| == 2 && AllLowerHex(s)
    ensures Pair(s[0], s[1]) == x
  {
    var hex := ToHex(x);
    if |hex| == 1 then
      assert hex[..0] == [];
      "0" + hex
    else
      assert hex == [hex[0], hex[1]];
      PairIsParseHex(hex[0], hex[1]);
      hex
  }

  /**
   * `rgbToHex(r, g, b)`: a `'#'` and then, for each channel in turn, its
   * value as two lower-case hexadecimal digits.
   */
  function RgbToHex(r: Byte, g: Byte, b: Byte): (s: string)
    ensures |s| == 7 && s[0] == '#'
    ensures forall i {:trigger s[i]} :: 1 <= i < 7 ==> IsLowerHexDigit(s[i])
    ensures IsHexDigit(s[1]) && IsHexDigit(s[2]) && IsHexDigit(s[3]) && IsHexDigit(s[4]) && IsHexDigit(s[5]) && IsHexDigit(s[6])
    ensures Pair(s[1], s[2]) == r && Pair(s[3], s[4]) == g && Pair(s[5], s[6]) == b
  {
    var x, y, z := Channel(r), Channel(g), Channel(b);
    var s := "#" + x + y + z;
    assert s[1] == x[0] && s[2] == x[1] && s[3] == y[0] && s[4] == y[1] && s[5] == z[0] && s[6] == z[1];
    s
  }

  /**
   * What `/^#?([a-f\d]{2})([a-f\d]{2})([a-f\d]{2})$/i` accepts: an optional
   * `'#'` and then exactly six hexadecimal digits in either case.
   */
  predicate MatchesColorPattern(s: string) {
    (|s| == 6 && AllHex(s)) || (|s| == 7 && s[0] == '#' && AllHex(s[1..]))
  }

  /** The six digits after the optional `'#'`. */
  function Digits(hex: string): string {
    if |hex| > 0 && hex[0] == '#' then hex[1..] else hex
  }

  /** `hexToRgb(hex)`: the colour the string denotes, or null (None). */
  function HexToRgb(hex: string): (c: Option<Rgb>)
    ensures c.Some? <==> MatchesColorPattern(hex)
  {
    var d := Digits(hex);
    if |d| == 6 && AllHex(d) then
      Some(Rgb(Pair(d[0], d[1]), Pair(d[2], d[3]), Pair(d[4], d[5])))
    else
      None
  }

  /** The lower-case form of a hexadecimal digit. */
  function LowerDigit(c: char): char
    requires IsHexDigit(c)
  {
    if 'A' <= c <= 'F' then (c as int - 'A' as int + 'a' as int) as char else c
  }

  function Lower(s: string): (t: string)
    requires AllHex(s)
    ensures |t| == |s| && forall i :: 0 <= i < |s| ==> t[i] == LowerDigit(s[i])
  {
    seq(|s|, i requires 0 <= i < |s| => LowerDigit(s[i]))
  }

  /** Decoding what `rgbToHex` produced gives back the colour it was given. */
  lemma RoundTrip(r: Byte, g: Byte, b: Byte)
    ensures HexToRgb(RgbToHex(r, g, b)) == Some(Rgb(r, g, b))
  {
    var s := RgbToHex(r, g, b);
    var d := Digits(s);
    assert d == s[1..];
    assert forall i :: 0 <= i < 6 ==> d[i] == s[i + 1];
  }

  /** Lower-casing a digit keeps its value. */
  lemma LowerDigitValue(c: char)
    requires IsHexDigit(c)
    ensures IsLowerHexDigit(LowerDigit(c)) && DigitValue(LowerDigit(c)) == DigitValue(c)
  {
  }

  /** Two groups of two lower-case digits with the same value are the same digits. */
  lemma PairInjective(a: char, b: char, c: char, e: char)
    requires IsLowerHexDigit(a) && IsLowerHexDigit(b) && IsLowerHexDigit(c) && IsLowerHexDigit(e)
    requires Pair(a, b) == Pair(c, e)
    ensures a == c && b == e
  {
    assert DigitValue(a) == DigitValue(c);
  }

  /** A `'#'` followed by the lower-case forms of six digits, one by one, is `"#" + Lower(d)`. */
  lemma Assemble(s: string, d: string)
    requires |s| == 7 && |d| == 6 && AllHex(d) && s[0] == '#'
    requires s[1] == LowerDigit(d[0]) && s[2] == LowerDigit(d[1]) && s[3] == LowerDigit(d[2])
    requires s[4] == LowerDigit(d[3]) && s[5] == LowerDigit(d[4]) && s[6] == LowerDigit(d[5])
    ensures s == "#" + Lower(d)
  {
    var e := "#" + Lower(d);
    assert forall i :: 0 <= i < 7 ==> s[i] == e[i];
  }

  /** An encoded group of two digits is the lower-case form of any group with the same value. */
  lemma SameGroup(a: char, b: char, c: char, e: char)
    requires IsLowerHexDigit(a) && IsLowerHexDigit(b) && IsHexDigit(c) && IsHexDigit(e)
    requires Pair(a, b) == Pair(c, e)
    ensures a == LowerDigit(c) && b == LowerDigit(e)
  {
    LowerDigitValue(c);
    LowerDigitValue(e);
    PairInjective(a, b, LowerDigit(c), LowerDigit(e));
  }

  /**
   * Every accepted string is the encoding of the colour it decodes to, up to
   * the case of its digits and the optional `'#'`: encoding after decoding
   * gives `'#'` and the same digits in lower case.
   */
  lemma CanonicalForm(hex: string)
    requires HexToRgb(hex).Some?
    ensures var c := HexToRgb(hex).value;
            RgbToHex(c.r, c.g, c.b) == "#" + Lower(Digits(hex))
  {
    var c := HexToRgb(hex).value;
    var d := Digits(hex);
    assert |d| == 6 && AllHex(d);
    var s := RgbToHex(c.r, c.g, c.b);
    assert c.r == Pair(d[0], d[1]) && c.g == Pair(d[2], d[3]) && c.b == Pair(d[4], d[5]);
    SameGroup(s[1], s[2], d[0], d[1]);
    SameGroup(s[3], s[4], d[2], d[3]);
    SameGroup(s[5], s[6], d[4], d[5]);
    Assemble(s, d);
  }
}
