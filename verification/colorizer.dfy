/** The colour pass of `applyColorsToDepthMap` (app/index.tsx): each pixel's
    red byte, read as an intensity in [0, 1], mixes the background and
    foreground colours channel by channel; brightness and contrast are then
    applied and the result clamped to [0, 255]. Alpha is kept. */
module Colorizer {
  import opened Uint8
  import opened MathUtils
  import opened ColorUtils
  import opened Pixels

  /** `enhancementSettings`; only brightness and contrast reach the pixels. */
  datatype Enhancement = Enhancement(brightness: real, contrast: real, saturation: real, sharpness: real, gamma: real)

  /** The initial settings, which the Revert action restores. */
  const DefaultEnhancement := Enhancement(0.0, 1.0, 1.0, 1.0, 1.0)

  /** Channel `i` of a colour: 0 red, 1 green, 2 blue. */
  function ChannelOf(c: Rgb, i: Channel): Byte
  {
    if i == 0 then c.r else if i == 1 then c.g else c.b
  }

  /** Moving from `lo` by the fraction `t` of `span`. */
  function Lerp(lo: real, span: real, t: real): real
  {
    lo + span * t
  }

  /** `bg + (fg - bg) * intensity` with `intensity = red / 255`; the mixed
      value lies between the background and the foreground channel. */
  function Mix(bg: Byte, fg: Byte, red: Byte): (m: real)
    ensures bg <= fg ==> bg as real <= m <= fg as real
    ensures fg < bg ==> fg as real <= m <= bg as real
  {
    LerpBounds(bg as real, fg as real - bg as real, red as real / 255.0);
    Lerp(bg as real, fg as real - bg as real, red as real / 255.0)
  }

  /** `Math.max(0, Math.min(255, x * contrast + brightness))`. */
  function Enhance(x: real, enh: Enhancement): (y: real)
    ensures 0.0 <= y <= 255.0
    ensures 0.0 <= x * enh.contrast + enh.brightness <= 255.0 ==> y == x * enh.contrast + enh.brightness
  {
    Clamp(x * enh.contrast + enh.brightness, 0.0, 255.0)
  }

  /** The byte stored for one colour channel of a pixel with red byte `red`. */
  function ChannelByte(bg: Byte, fg: Byte, red: Byte, enh: Enhancement): (b: Byte)
    ensures -0.5 <= b as real - Enhance(Mix(bg, fg, red), enh) <= 0.5
  {
    ToUint8Clamp(Enhance(Mix(bg, fg, red), enh))
  }

  /** The colour bytes the colour pass writes: channel `c` of the mix driven
      by the pixel's red byte; green and blue are not read. */
  function ColorFn(fg: Rgb, bg: Rgb, enh: Enhancement): (Channel, Byte, Byte, Byte) -> Byte
  {
    (c: Channel, r: Byte, g: Byte, b: Byte) => ChannelByte(ChannelOf(bg, c), ChannelOf(fg, c), r, enh)
  }

  /** What the colour function gives for each channel of one pixel. */
  lemma ColorFnAt(fg: Rgb, bg: Rgb, enh: Enhancement, r: Byte, g: Byte, b: Byte)
    ensures ColorFn(fg, bg, enh)(0, r, g, b) == ToUint8Clamp(Enhance(Mix(bg.r, fg.r, r), enh))
    ensures ColorFn(fg, bg, enh)(1, r, g, b) == ToUint8Clamp(Enhance(Mix(bg.g, fg.g, r), enh))
    ensures ColorFn(fg, bg, enh)(2, r, g, b) == ToUint8Clamp(Enhance(Mix(bg.b, fg.b, r), enh))
  {
  }

  /** The buffer the colour pass leaves behind. */
  function Colorize(s: seq<Byte>, fg: Rgb, bg: Rgb, enh: Enhancement): (c: seq<Byte>)
    requires |s| % 4 == 0
    ensures |c| == |s|
    ensures forall k | 0 <= k < |s| && k % 4 == 3 :: c[k] == s[k]
  {
    RecolorShape(s, ColorFn(fg, bg, enh));
    Recolor(s, ColorFn(fg, bg, enh))
  }

  /** The colour pass of `applyColorsToDepthMap`, in place over the image data. */
  method ApplyColors(data: array<Byte>, fg: Rgb, bg: Rgb, enh: Enhancement)
    requires data.Length % 4 == 0
    modifies data
    ensures data[..] == Colorize(old(data[..]), fg, bg, enh)
  {
    ghost var src := data[..];
    ghost var f := ColorFn(fg, bg, enh);
    var i := 0;
    while i < data.Length
      invariant 0 <= i <= data.Length && i % 4 == 0
      invariant forall k | 0 <= k < i :: data[k] == RecolorByteAt(src, k, f)
      invariant forall k | i <= k < data.Length :: data[k] == src[k]
    {
      NextPixel(i, data.Length);
      var red := data[i];
      var r := Enhance(Mix(bg.r, fg.r, red), enh);
      var g := Enhance(Mix(bg.g, fg.g, red), enh);
      var b := Enhance(Mix(bg.b, fg.b, red), enh);
      ColorFnAt(fg, bg, enh, src[i], src[i + 1], src[i + 2]);
      data[i] := ToUint8Clamp(r);
      data[i + 1] := ToUint8Clamp(g);
      data[i + 2] := ToUint8Clamp(b);
      forall k | i <= k < i + 4
        ensures data[k] == RecolorByteAt(src, k, f)
      {
        PixelSlot(src, i, k, f);
      }
      i := i + 4;
    }
  }

  /** The colour pass keeps the length and the alpha bytes, and channel `c`
      of every pixel is the enhanced mix of that channel of the two colours,
      driven by the pixel's red byte. */
  lemma {:induction false} ColorizeShape(s: seq<Byte>, fg: Rgb, bg: Rgb, enh: Enhancement)
    requires |s| % 4 == 0
    ensures |Colorize(s, fg, bg, enh)| == |s|
    ensures forall k | 0 <= k < |s| && k % 4 == 3 :: Colorize(s, fg, bg, enh)[k] == s[k]
    ensures forall k | 0 <= k < |s| && k % 4 == 0 ::
              k + 2 < |s|
              && Colorize(s, fg, bg, enh)[k] == ChannelByte(bg.r, fg.r, s[k], enh)
              && Colorize(s, fg, bg, enh)[k + 1] == ChannelByte(bg.g, fg.g, s[k], enh)
              && Colorize(s, fg, bg, enh)[k + 2] == ChannelByte(bg.b, fg.b, s[k], enh)
  {
    var f := ColorFn(fg, bg, enh);
    RecolorShape(s, f);
    forall k | 0 <= k < |s| && k % 4 == 0
      ensures k + 2 < |s|
              && Colorize(s, fg, bg, enh)[k] == ChannelByte(bg.r, fg.r, s[k], enh)
              && Colorize(s, fg, bg, enh)[k + 1] == ChannelByte(bg.g, fg.g, s[k], enh)
              && Colorize(s, fg, bg, enh)[k + 2] == ChannelByte(bg.b, fg.b, s[k], enh)
    {
      ColorFnAt(fg, bg, enh, s[k], s[k + 1], s[k + 2]);
    }
  }

  /** Only the red byte of a depth pixel is read: two depth buffers that
      agree on every red and every alpha byte colour identically. */
  lemma {:induction false} ReadsOnlyRed(s: seq<Byte>, t: seq<Byte>, fg: Rgb, bg: Rgb, enh: Enhancement)
    requires |s| == |t| && |s| % 4 == 0
    requires forall k | 0 <= k < |s| && k % 4 == 0 :: s[k] == t[k]
    requires forall k | 0 <= k < |s| && k % 4 == 3 :: s[k] == t[k]
    ensures Colorize(s, fg, bg, enh) == Colorize(t, fg, bg, enh)
  {
    var f := ColorFn(fg, bg, enh);
    forall k | 0 <= k < |s| && k % 4 == 0
      ensures k + 2 < |s| && SameColors(s, f, t, f, k)
    {
      NextPixel(k, |s|);
    }
    RecolorLocal(s, f, t, f);
  }

  /** A channel depends on the settings only through brightness and contrast. */
  lemma ChannelInert(bg: Byte, fg: Byte, red: Byte, enh: Enhancement, enh': Enhancement)
    requires enh.brightness == enh'.brightness && enh.contrast == enh'.contrast
    ensures ChannelByte(bg, fg, red, enh) == ChannelByte(bg, fg, red, enh')
  {
    EnhanceInert(Mix(bg, fg, red), enh, enh');
  }

  /** Enhancing reads only brightness and contrast. */
  lemma EnhanceInert(x: real, enh: Enhancement, enh': Enhancement)
    requires enh.brightness == enh'.brightness && enh.contrast == enh'.contrast
    ensures Enhance(x, enh) == Enhance(x, enh')
  {
    assert x * enh.contrast + enh.brightness == x * enh'.contrast + enh'.brightness;
  }

  /** Saturation, sharpness and gamma have no effect on the pixels. */
  lemma {:induction false} InertSettings(s: seq<Byte>, fg: Rgb, bg: Rgb, enh: Enhancement, saturation: real, sharpness: real, gamma: real)
    requires |s| % 4 == 0
    ensures Colorize(s, fg, bg, enh) == Colorize(s, fg, bg, enh.(saturation := saturation, sharpness := sharpness, gamma := gamma))
  {
    var enh' := enh.(saturation := saturation, sharpness := sharpness, gamma := gamma);
    var f, f' := ColorFn(fg, bg, enh), ColorFn(fg, bg, enh');
    forall k | 0 <= k < |s| && k % 4 == 0
      ensures k + 2 < |s| && SameColors(s, f, s, f', k)
    {
      NextPixel(k, |s|);
      ChannelInert(bg.r, fg.r, s[k], enh, enh');
      ChannelInert(bg.g, fg.g, s[k], enh, enh');
      ChannelInert(bg.b, fg.b, s[k], enh, enh');
    }
    RecolorLocal(s, f, s, f');
  }

  /** With the identity enhancement (contrast 1, brightness 0), intensity 0
      gives exactly the background channel and intensity 1 exactly the
      foreground channel. */
  lemma {:induction false} GradientEndpoints(bg: Byte, fg: Byte, enh: Enhancement)
    requires enh.contrast == 1.0 && enh.brightness == 0.0
    ensures ChannelByte(bg, fg, 0, enh) == bg
    ensures ChannelByte(bg, fg, 255, enh) == fg
  {
    var span := fg as real - bg as real;
    assert Mix(bg, fg, 0) == Lerp(bg as real, span, 0.0) == bg as real + span * 0.0;
    assert Mix(bg, fg, 255) == Lerp(bg as real, span, 1.0) == bg as real + span * 1.0;
    ToUint8ClampIntegral(bg);
    ToUint8ClampIntegral(fg);
  }

  /** A fraction in [0, 1] of the span keeps the value between both ends. */
  lemma LerpBounds(lo: real, span: real, t: real)
    requires 0.0 <= t <= 1.0
    ensures 0.0 <= span ==> lo <= Lerp(lo, span, t) <= lo + span
    ensures span < 0.0 ==> lo + span <= Lerp(lo, span, t) <= lo
  {
    assert span - span * t == span * (1.0 - t);
    if 0.0 <= span {
      MulNonNeg(span, t);
      MulNonNeg(span, 1.0 - t);
    } else {
      MulNonPos(span, t);
      MulNonPos(span, 1.0 - t);
    }
  }

  lemma MulNonNeg(a: real, b: real)
    requires 0.0 <= a && 0.0 <= b
    ensures 0.0 <= a * b
  {
  }

  lemma MulNonPos(a: real, b: real)
    requires a <= 0.0 <= b
    ensures a * b <= 0.0
  {
  }

  /** With the identity enhancement every coloured channel is a byte between
      the background and the foreground channel. */
  lemma {:induction false} ChannelBetweenEndpoints(bg: Byte, fg: Byte, red: Byte, enh: Enhancement)
    requires enh.contrast == 1.0 && enh.brightness == 0.0
    ensures bg <= ChannelByte(bg, fg, red, enh) <= fg || fg <= ChannelByte(bg, fg, red, enh) <= bg
  {
    var m := Mix(bg, fg, red);
    assert Enhance(m, enh) == m;
    ToUint8ClampIntegral(bg);
    ToUint8ClampIntegral(fg);
    if bg <= fg {
      ToUint8ClampMonotone(bg as real, m);
      ToUint8ClampMonotone(m, fg as real);
    } else {
      ToUint8ClampMonotone(fg as real, m);
      ToUint8ClampMonotone(m, bg as real);
    }
  }

  /** Whole-buffer form: with the identity enhancement a depth pixel with red
      byte 0 becomes the background colour, one with red byte 255 the
      foreground colour. */
  lemma {:induction false} ColorizeEndpoints(s: seq<Byte>, k: nat, fg: Rgb, bg: Rgb, enh: Enhancement)
    requires |s| % 4 == 0 && k < |s| && k % 4 == 0
    requires enh.contrast == 1.0 && enh.brightness == 0.0
    ensures k + 2 < |s|
    ensures s[k] == 0 ==> var d := Colorize(s, fg, bg, enh); d[k] == bg.r && d[k + 1] == bg.g && d[k + 2] == bg.b
    ensures s[k] == 255 ==> var d := Colorize(s, fg, bg, enh); d[k] == fg.r && d[k + 1] == fg.g && d[k + 2] == fg.b
  {
    ColorizeShape(s, fg, bg, enh);
    GradientEndpoints(bg.r, fg.r, enh);
    GradientEndpoints(bg.g, fg.g, enh);
    GradientEndpoints(bg.b, fg.b, enh);
  }
}
