/** The depth pass of `generateDepthMap` (app/index.tsx): every RGBA pixel of
    the source buffer is replaced, in place, by a gray level computed from
    its red, green and blue bytes by the selected method; alpha is kept. */
module DepthEstimator {
  import opened Uint8
  import opened MathUtils
  import opened MethodParams
  import opened Pixels

  /** Standard luminance weights, the default formula; the weights sum to
      one, so the result is again in the byte range. */
  function Luminance(r: Byte, g: Byte, b: Byte): (l: real)
    ensures 0.0 <= l <= 255.0
  {
    r as real * 0.299 + g as real * 0.587 + b as real * 0.114
  }

  /** The gray level before clamping, by method name. `pow` stands for
      `x => Math.pow(x, 1.2)`, which the model leaves uninterpreted. */
  function RawGray(depthMethod: string, params: Params, pow: real -> real, r: Byte, g: Byte, b: Byte): (gray: real)
    ensures depthMethod == "depth-pro" ==> gray <= 255.0
    ensures depthMethod !in {"depth-anything-v2", "midas", "marigold", "tfjs-depth", "depth-pro"}
            ==> 0.0 <= gray <= 255.0
  {
    if depthMethod == "depth-anything-v2" then
      (r as real * 0.2 + g as real * 0.7 + b as real * 0.1) * ParamOr(params, "confidence", 0.5)
    else if depthMethod == "midas" then
      Luminance(r, g, b) * ParamOr(params, "alpha", 0.6)
    else if depthMethod == "marigold" then
      pow(Luminance(r, g, b)) * ParamOr(params, "ensemble", 4.0) / 4.0
    else if depthMethod == "tfjs-depth" then
      (r as real * 0.1 + g as real * 0.8 + b as real * 0.1) * ParamOr(params, "focus", 0.8)
    else if depthMethod == "depth-pro" then
      Min(255.0, Luminance(r, g, b) * ParamOr(params, "sharpness", 1.0))
    else
      Luminance(r, g, b)
  }

  /** `gray = Math.max(0, Math.min(255, gray))`. */
  function Gray(depthMethod: string, params: Params, pow: real -> real, r: Byte, g: Byte, b: Byte): (gray: real)
    ensures 0.0 <= gray <= 255.0
  {
    Clamp(RawGray(depthMethod, params, pow, r, g, b), 0.0, 255.0)
  }

  /** The byte that `data[i] = gray` stores. */
  function GrayByte(depthMethod: string, params: Params, pow: real -> real, r: Byte, g: Byte, b: Byte): Byte
  {
    ToUint8Clamp(Gray(depthMethod, params, pow, r, g, b))
  }

  /** The colour bytes the depth pass writes: the gray level, in all three. */
  function GrayFn(depthMethod: string, params: Params, pow: real -> real): (Channel, Byte, Byte, Byte) -> Byte
  {
    (c: Channel, r: Byte, g: Byte, b: Byte) => GrayByte(depthMethod, params, pow, r, g, b)
  }

  /** The buffer the depth pass leaves behind: as long as the image, with
      its alpha, and gray in every pixel. */
  function DepthMap(s: seq<Byte>, depthMethod: string, params: Params, pow: real -> real): (d: seq<Byte>)
    requires |s| % 4 == 0
    ensures |d| == |s| && SameAlpha(d, s) && Monochrome(d)
  {
    RecolorShape(s, GrayFn(depthMethod, params, pow));
    Recolor(s, GrayFn(depthMethod, params, pow))
  }

  /** Every pixel of a monochrome buffer has R = G = B. */
  predicate Monochrome(d: seq<Byte>)
    requires |d| % 4 == 0
  {
    forall k | 0 <= k < |d| && k % 4 == 0 :: k + 2 < |d| && d[k] == d[k + 1] == d[k + 2]
  }

  /** The alpha bytes of two buffers of one length agree. */
  predicate SameAlpha(d: seq<Byte>, s: seq<Byte>)
    requires |d| == |s| && |s| % 4 == 0
  {
    forall k | 0 <= k < |s| && k % 4 == 3 :: d[k] == s[k]
  }

  /** The depth pass keeps the length, leaves every alpha byte alone and
      makes every pixel gray, with the level the method computes from the
      pixel's own red, green and blue. */
  lemma {:induction false} DepthMapShape(s: seq<Byte>, depthMethod: string, params: Params, pow: real -> real)
    requires |s| % 4 == 0
    ensures |DepthMap(s, depthMethod, params, pow)| == |s|
    ensures Monochrome(DepthMap(s, depthMethod, params, pow))
    ensures SameAlpha(DepthMap(s, depthMethod, params, pow), s)
    ensures forall k | 0 <= k < |s| && k % 4 == 0 ::
              k + 2 < |s| && DepthMap(s, depthMethod, params, pow)[k] == GrayByte(depthMethod, params, pow, s[k], s[k + 1], s[k + 2])
  {
    RecolorShape(s, GrayFn(depthMethod, params, pow));
  }

  /** The depth pass of `generateDepthMap`, in place over the image data. */
  method EstimateDepth(data: array<Byte>, depthMethod: string, params: Params, pow: real -> real)
    requires data.Length % 4 == 0
    modifies data
    ensures data[..] == DepthMap(old(data[..]), depthMethod, params, pow)
  {
    ghost var src := data[..];
    ghost var f := GrayFn(depthMethod, params, pow);
    var i := 0;
    while i < data.Length
      invariant 0 <= i <= data.Length && i % 4 == 0
      invariant forall k | 0 <= k < i :: data[k] == RecolorByteAt(src, k, f)
      invariant forall k | i <= k < data.Length :: data[k] == src[k]
    {
      NextPixel(i, data.Length);
      var gray := Gray(depthMethod, params, pow, data[i], data[i + 1], data[i + 2]);
      assert ToUint8Clamp(gray) == f(0, src[i], src[i + 1], src[i + 2])
                                == f(1, src[i], src[i + 1], src[i + 2])
                                == f(2, src[i], src[i + 1], src[i + 2]);
      data[i] := ToUint8Clamp(gray);
      data[i + 1] := ToUint8Clamp(gray);
      data[i + 2] := ToUint8Clamp(gray);
      forall k | i <= k < i + 4
        ensures data[k] == RecolorByteAt(src, k, f)
      {
        PixelSlot(src, i, k, f);
      }
      i := i + 4;
    }
  }

  /** An unknown method name is not an error: it uses plain luminance. */
  lemma UnknownMethodFallsBack(depthMethod: string, params: Params, pow: real -> real, r: Byte, g: Byte, b: Byte)
    requires depthMethod !in {"depth-anything-v2", "midas", "marigold", "tfjs-depth", "depth-pro"}
    ensures RawGray(depthMethod, params, pow, r, g, b) == 0.299 * r as real + 0.587 * g as real + 0.114 * b as real
  {
  }

  /** With an empty parameter bag each method scales by its default:
      confidence 0.5, alpha 0.6, ensemble 4, focus 0.8, sharpness 1.0. */
  lemma DefaultScales(pow: real -> real, r: Byte, g: Byte, b: Byte)
    ensures RawGray("depth-anything-v2", map[], pow, r, g, b) == (0.2 * r as real + 0.7 * g as real + 0.1 * b as real) * 0.5
    ensures RawGray("midas", map[], pow, r, g, b) == Luminance(r, g, b) * 0.6
    ensures RawGray("marigold", map[], pow, r, g, b) == pow(Luminance(r, g, b))
    ensures RawGray("tfjs-depth", map[], pow, r, g, b) == (0.1 * r as real + 0.8 * g as real + 0.1 * b as real) * 0.8
    ensures RawGray("depth-pro", map[], pow, r, g, b) == Min(255.0, Luminance(r, g, b))
  {
  }

  /** A zero or NaN parameter is read as its default, just like a missing one. */
  lemma FalsyParamIsDefault(depthMethod: string, params: Params, key: string, pow: real -> real, r: Byte, g: Byte, b: Byte)
    requires key in params && (params[key] == Num(0.0) || params[key] == NaN)
    ensures RawGray(depthMethod, params, pow, r, g, b) == RawGray(depthMethod, params - {key}, pow, r, g, b)
  {
  }

  /** Marigold's level `pow(L) * ensemble / 4` is used as is inside the byte
      range and saturates outside it, however large or negative `pow` and
      the ensemble count make it. */
  lemma MarigoldClamped(params: Params, pow: real -> real, r: Byte, g: Byte, b: Byte)
    ensures var v := pow(Luminance(r, g, b)) * ParamOr(params, "ensemble", 4.0) / 4.0;
            && (0.0 <= v <= 255.0 ==> Gray("marigold", params, pow, r, g, b) == v)
            && (v >= 255.0 ==> GrayByte("marigold", params, pow, r, g, b) == 255)
            && (v <= 0.0 ==> GrayByte("marigold", params, pow, r, g, b) == 0)
  {
  }

  /** RGBA(200, 100, 50, 255) under "midas" with the default alpha 0.6:
      124.2 * 0.6 = 74.52, stored as 75. */
  lemma MidasExample(pow: real -> real)
    ensures Gray("midas", map[], pow, 200, 100, 50) == 74.52
    ensures GrayByte("midas", map[], pow, 200, 100, 50) == 75
  {
  }

  /** For the unscaled default formula on bytes the level never needs the
      upper clamp, and a gray input pixel keeps its level. */
  lemma DefaultFormulaOnGray(depthMethod: string, params: Params, pow: real -> real, v: Byte)
    requires depthMethod !in {"depth-anything-v2", "midas", "marigold", "tfjs-depth", "depth-pro"}
    ensures Gray(depthMethod, params, pow, v, v, v) == v as real
    ensures GrayByte(depthMethod, params, pow, v, v, v) == v
  {
    ToUint8ClampIntegral(v);
  }
}
