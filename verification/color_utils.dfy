/** `hexToRgb` of utils/colorUtils, as pinned by __tests__/colorUtils.test.ts:
    an optional leading '#', then exactly six hexadecimal digits (either
    case); any other string yields black instead of an error. */
module ColorUtils {
  import opened Uint8

  datatype Rgb = Rgb(r: Byte, g: Byte, b: Byte)

  const Black := Rgb(0, 0, 0)

  predicate IsHexDigit(c: char)
  {
    ('0' <= c <= '9') || ('a' <= c <= 'f') || ('A' <= c <= 'F')
  }

  function HexDigitValue(c: char): (v: int)
    requires IsHexDigit(c)
    ensures 0 <= v < 16
  {
    if '0' <= c <= '9' then c as int - '0' as int
    else if 'a' <= c <= 'f' then c as int - 'a' as int + 10
    else c as int - 'A' as int + 10
  }

  /** The string without one optional leading '#'. */
  function Digits(s: string): (d: string)
    ensures |s| > 0 && s[0] == '#' ==> d == s[1..]
    ensures !(|s| > 0 && s[0] == '#') ==> d == s
  {
    if |s| > 0 && s[0] == '#' then s[1..] else s
  }

  predicate IsHexColor(s: string)
  {
    var d := Digits(s);
    |d| == 6 && forall i | 0 <= i < 6 :: IsHexDigit(d[i])
  }

  /** Two hex digits read as one byte, high digit first. */
  function HexByte(hi: char, lo: char): Byte
    requires IsHexDigit(hi) && IsHexDigit(lo)
  {
    HexDigitValue(hi) * 16 + HexDigitValue(lo)
  }

  /** `hexToRgb`: a well-formed colour parses to the channels whose
      lower-case spelling its digits are (so either case parses, to the same
      colour); anything else parses as black. */
  function HexToRgb(s: string): (c: Rgb)
    ensures !IsHexColor(s) ==> c == Black
    ensures IsHexColor(s) ==> RgbToHex(c) == "#" + LowerDigits(Digits(s))
  {
    if IsHexColor(s) then
      var d := Digits(s);
      SpellingOfDigits(d);
      Rgb(HexByte(d[0], d[1]), HexByte(d[2], d[3]), HexByte(d[4], d[5]))
    else Black
  }

  /** The lower-case form of a hex digit; other characters are kept. */
  function LowerHex(c: char): (l: char)
    ensures IsHexDigit(c) ==> IsHexDigit(l) && HexDigitValue(l) == HexDigitValue(c)
    ensures !('A' <= c <= 'F') ==> l == c
  {
    if 'A' <= c <= 'F' then (c as int - 'A' as int + 'a' as int) as char else c
  }

  /** A string of digits with every hex digit in lower case. */
  function LowerDigits(s: string): (t: string)
    ensures |t| == |s| && forall i | 0 <= i < |s| :: t[i] == LowerHex(s[i])
  {
    seq(|s|, i requires 0 <= i < |s| => LowerHex(s[i]))
  }

  /** Lower-case hex digit of a value below 16. */
  function HexChar(v: int): (c: char)
    requires 0 <= v < 16
    ensures IsHexDigit(c) && HexDigitValue(c) == v
  {
    if v < 10 then ('0' as int + v) as char else ('a' as int + v - 10) as char
  }

  /** Two hex digits of a byte. */
  function ByteToHex(x: Byte): (s: string)
    ensures |s| == 2 && IsHexDigit(s[0]) && IsHexDigit(s[1]) && HexByte(s[0], s[1]) == x
  {
    [HexChar(x / 16), HexChar(x % 16)]
  }

  /** The '#rrggbb' spelling of a colour, the inverse of HexToRgb. */
  function RgbToHex(c: Rgb): (s: string)
    ensures |s| == 7 && s[0] == '#'
  {
    "#" + ByteToHex(c.r) + ByteToHex(c.g) + ByteToHex(c.b)
  }

  /** Spelling out the value of a hex digit gives the digit in lower case. */
  lemma HexCharOfValue(c: char)
    requires IsHexDigit(c)
    ensures HexChar(HexDigitValue(c)) == LowerHex(c)
  {
  }

  /** Spelling out the byte two hex digits stand for gives them back in lower case. */
  lemma PairRoundTrip(hi: char, lo: char)
    requires IsHexDigit(hi) && IsHexDigit(lo)
    ensures ByteToHex(HexByte(hi, lo)) == [LowerHex(hi), LowerHex(lo)]
  {
    var x := HexByte(hi, lo);
    assert x / 16 == HexDigitValue(hi) && x % 16 == HexDigitValue(lo);
    HexCharOfValue(hi);
    HexCharOfValue(lo);
  }

  /** Spelling out the colour six hex digits stand for gives them back in lower case. */
  lemma SpellingOfDigits(d: string)
    requires |d| == 6 && forall i | 0 <= i < 6 :: IsHexDigit(d[i])
    ensures RgbToHex(Rgb(HexByte(d[0], d[1]), HexByte(d[2], d[3]), HexByte(d[4], d[5])))
            == "#" + LowerDigits(d)
  {
    PairRoundTrip(d[0], d[1]);
    PairRoundTrip(d[2], d[3]);
    PairRoundTrip(d[4], d[5]);
    var l := LowerDigits(d);
    assert l == [l[0], l[1]] + [l[2], l[3]] + [l[4], l[5]];
  }

  /** Every colour survives a round trip through its hex spelling. */
  lemma HexRoundTrip(c: Rgb)
    ensures IsHexColor(RgbToHex(c))
    ensures HexToRgb(RgbToHex(c)) == c
  {
    var s := RgbToHex(c);
    var d := Digits(s);
    assert d == ByteToHex(c.r) + ByteToHex(c.g) + ByteToHex(c.b);
    assert d[0..2] == ByteToHex(c.r);
    assert d[2..4] == ByteToHex(c.g);
    assert d[4..6] == ByteToHex(c.b);
  }

  /** The '#' is optional: a colour parses the same with or without it. */
  lemma HashOptional(s: string)
    requires |s| > 0 && s[0] != '#'
    ensures HexToRgb("#" + s) == HexToRgb(s)
  {
    assert Digits("#" + s) == s;
  }

  /** Parsing ignores case: a well-formed colour parses as its lower-case
      spelling does. */
  lemma {:induction false} ParseIgnoresCase(s: string)
    requires IsHexColor(s)
    ensures IsHexColor("#" + LowerDigits(Digits(s)))
    ensures HexToRgb(s) == HexToRgb("#" + LowerDigits(Digits(s)))
  {
    HexRoundTrip(HexToRgb(s));
  }

  /** Any string whose digits are not six long is parsed as black. */
  lemma WrongLengthIsBlack(s: string)
    requires |Digits(s)| != 6
    ensures HexToRgb(s) == Black
  {
  }

  /** A non-hex character among the six digits gives black. */
  lemma NonHexIsBlack(s: string, i: nat)
    requires i < |Digits(s)| && !IsHexDigit(Digits(s)[i])
    ensures HexToRgb(s) == Black
  {
  }

  /** `hexToRgb('#ffffff')` is white. */
  lemma WhiteTest()
    ensures HexToRgb("#ffffff") == Rgb(255, 255, 255)
  {
    assert IsHexColor("#ffffff");
  }

  /** `hexToRgb('000000')` is black: no '#' needed. */
  lemma BlackWithoutHashTest()
    ensures HexToRgb("000000") == Rgb(0, 0, 0)
  {
  }

  /** `hexToRgb('#xyz')` is black rather than an error. */
  lemma InvalidTest()
    ensures HexToRgb("#xyz") == Rgb(0, 0, 0)
  {
  }

  /** The app's initial gradient endpoints '#FF0000' and '#0000FF'. */
  lemma DefaultGradientColors()
    ensures HexToRgb("#FF0000") == Rgb(255, 0, 0)
    ensures HexToRgb("#0000FF") == Rgb(0, 0, 255)
  {
    assert IsHexColor("#FF0000");
    assert IsHexColor("#0000FF");
  }
}
