/** The shape shared by both pixel passes of app/index.tsx: a loop over an
    RGBA buffer, four bytes at a time, that overwrites each pixel's red,
    green and blue bytes with values computed from that pixel and leaves its
    alpha byte alone. */
module Pixels {
  import opened Uint8

  /** Offset of a colour byte within its pixel: 0 red, 1 green, 2 blue. */
  type Channel = c: int | 0 <= c < 3

  /** Byte `k` of the buffer in which colour byte `c` of every pixel is
      replaced by `f(c, r, g, b)` of that pixel's original bytes. */
  function RecolorByteAt(s: seq<Byte>, k: nat, f: (Channel, Byte, Byte, Byte) -> Byte): Byte
    requires |s| % 4 == 0 && k < |s|
  {
    if k % 4 == 3 then s[k]
    else
      var p := k - k % 4;
      f(k % 4, s[p], s[p + 1], s[p + 2])
  }

  /** The whole buffer after such a pass. */
  function Recolor(s: seq<Byte>, f: (Channel, Byte, Byte, Byte) -> Byte): seq<Byte>
    requires |s| % 4 == 0
  {
    seq(|s|, k requires 0 <= k < |s| => RecolorByteAt(s, k, f))
  }

  /** Stepping from one whole pixel to the next stays within a buffer of
      whole pixels. */
  lemma NextPixel(i: int, n: int)
    requires 0 <= i < n && i % 4 == 0 && n % 4 == 0
    ensures i + 3 < n && i + 4 <= n && (i + 4) % 4 == 0
  {
  }

  /** Byte `k` of the pixel starting at `p` is colour byte `k - p` computed
      from that pixel, or, at offset 3, its alpha. */
  lemma PixelSlot(s: seq<Byte>, p: nat, k: nat, f: (Channel, Byte, Byte, Byte) -> Byte)
    requires |s| % 4 == 0 && p % 4 == 0 && p <= k < p + 4 && k < |s|
    ensures k < p + 3 ==> RecolorByteAt(s, k, f) == f(k - p, s[p], s[p + 1], s[p + 2])
    ensures k == p + 3 ==> RecolorByteAt(s, k, f) == s[k]
  {
    assert k % 4 == k - p;
  }

  /** A pass keeps the length and every alpha byte, and puts `f(c, r, g, b)`
      of each pixel in its colour byte `c`. */
  lemma {:induction false} RecolorShape(s: seq<Byte>, f: (Channel, Byte, Byte, Byte) -> Byte)
    requires |s| % 4 == 0
    ensures |Recolor(s, f)| == |s|
    ensures forall k | 0 <= k < |s| && k % 4 == 3 :: Recolor(s, f)[k] == s[k]
    ensures forall k | 0 <= k < |s| && k % 4 == 0 ::
              k + 2 < |s|
              && Recolor(s, f)[k] == f(0, s[k], s[k + 1], s[k + 2])
              && Recolor(s, f)[k + 1] == f(1, s[k], s[k + 1], s[k + 2])
              && Recolor(s, f)[k + 2] == f(2, s[k], s[k + 1], s[k + 2])
  {
    forall k | 0 <= k < |s| && k % 4 == 0
      ensures k + 2 < |s|
              && Recolor(s, f)[k] == f(0, s[k], s[k + 1], s[k + 2])
              && Recolor(s, f)[k + 1] == f(1, s[k], s[k + 1], s[k + 2])
              && Recolor(s, f)[k + 2] == f(2, s[k], s[k + 1], s[k + 2])
    {
      NextPixel(k, |s|);
      PixelSlot(s, k, k, f);
      PixelSlot(s, k, k + 1, f);
      PixelSlot(s, k, k + 2, f);
    }
  }

  /** Pixel `k` of `s` under `f` and pixel `k` of `t` under `g` get the
      same colour bytes. */
  predicate SameColors(s: seq<Byte>, f: (Channel, Byte, Byte, Byte) -> Byte,
                       t: seq<Byte>, g: (Channel, Byte, Byte, Byte) -> Byte, k: nat)
    requires k + 2 < |s| && k + 2 < |t|
  {
    && f(0, s[k], s[k + 1], s[k + 2]) == g(0, t[k], t[k + 1], t[k + 2])
    && f(1, s[k], s[k + 1], s[k + 2]) == g(1, t[k], t[k + 1], t[k + 2])
    && f(2, s[k], s[k + 1], s[k + 2]) == g(2, t[k], t[k + 1], t[k + 2])
  }

  /** A pass is pixel-local: two passes whose pixels get the same colour
      bytes over buffers with the same alpha bytes produce equal buffers. */
  lemma {:induction false} RecolorLocal(s: seq<Byte>, f: (Channel, Byte, Byte, Byte) -> Byte,
                                        t: seq<Byte>, g: (Channel, Byte, Byte, Byte) -> Byte)
    requires |s| == |t| && |s| % 4 == 0
    requires forall k | 0 <= k < |s| && k % 4 == 0 :: k + 2 < |s| && SameColors(s, f, t, g, k)
    requires forall k | 0 <= k < |s| && k % 4 == 3 :: s[k] == t[k]
    ensures Recolor(s, f) == Recolor(t, g)
  {
    forall k | 0 <= k < |s|
      ensures Recolor(s, f)[k] == Recolor(t, g)[k]
    {
      var p := k - k % 4;
      PixelSlot(s, p, k, f);
      PixelSlot(t, p, k, g);
      if k < p + 3 {
        NextPixel(p, |s|);
        assert SameColors(s, f, t, g, p);
      }
    }
  }
}
