/**
  The digital glitch's banded noise image. `Scan` is the reference definition
  of one regeneration: a starting colour drawn from four samples, then, for
  each of the 64x32 pixels in row-major order, one sample deciding whether to
  draw a new colour (sample > 0.89) before the current colour is written.
  `NoiseTexture` is the Texture2D the passes write into pixel by pixel.
 */
module Noise {
  import opened Engine

  const Width: nat := 64
  const Height: nat := 32
  const PixelCount: nat := Width * Height
  const RedrawThreshold: real := 0.89

  datatype Color = Color(r: Sample, g: Sample, b: Sample, a: Sample)

  /** The colour randomColor builds from the four samples starting at `at`,
      taken in r, g, b, a order. */
  function ColorAt(draws: nat -> Sample, at: nat): Color
  {
    Color(draws(at), draws(at + 1), draws(at + 2), draws(at + 3))
  }

  /** Where a regeneration stands: the current colour, the stream cursor, the
      pixels written so far in scan order, and the redraw-decision samples drawn. */
  datatype ScanState = ScanState(color: Color, cursor: nat, pixels: seq<Color>, decisions: seq<Sample>)

  function Begin(draws: nat -> Sample, start: nat): ScanState
  {
    ScanState(ColorAt(draws, start), start + 4, [], [])
  }

  /** One pixel: draw the decision sample, redraw the colour if it exceeds the
      threshold, write the current colour. */
  function Step(draws: nat -> Sample, s: ScanState): ScanState
  {
    var d := draws(s.cursor);
    if d > RedrawThreshold then
      var c := ColorAt(draws, s.cursor + 1);
      ScanState(c, s.cursor + 5, s.pixels + [c], s.decisions + [d])
    else
      ScanState(s.color, s.cursor + 1, s.pixels + [s.color], s.decisions + [d])
  }

  /** The state after the first k pixels of a regeneration whose first sample is at `start`. */
  function Scan(draws: nat -> Sample, start: nat, k: nat): (s: ScanState)
    ensures |s.pixels| == k && |s.decisions| == k
  {
    if k == 0 then Begin(draws, start) else Step(draws, Scan(draws, start, k - 1))
  }

  /** A full regeneration of the 64x32 image. */
  function Generate(draws: nat -> Sample, start: nat): ScanState
  {
    Scan(draws, start, PixelCount)
  }

  /** How many decision samples exceed the redraw threshold. */
  function Redraws(ds: seq<Sample>): nat
  {
    if ds == [] then 0
    else Redraws(ds[..|ds| - 1]) + (if ds[|ds| - 1] > RedrawThreshold then 1 else 0)
  }

  /** The pixels already written never change while the scan goes on. */
  lemma {:induction false} ScanPrefix(draws: nat -> Sample, start: nat, i: nat, k: nat)
    requires i <= k
    ensures Scan(draws, start, k).pixels[..i] == Scan(draws, start, i).pixels
    ensures Scan(draws, start, k).decisions[..i] == Scan(draws, start, i).decisions
    decreases k
  {
    if i < k {
      ScanPrefix(draws, start, i, k - 1);
      var prev := Scan(draws, start, k - 1);
      assert Scan(draws, start, k).pixels[..i] == prev.pixels[..i];
      assert Scan(draws, start, k).decisions[..i] == prev.decisions[..i];
    }
  }

  /** Band structure: the decision for pixel i is the sample under the cursor
      when pixel i is reached; a decision above 0.89 gives the pixel the colour
      of the next four samples, any other keeps the previous pixel's colour
      (the starting colour for the first pixel). */
  lemma BandStructure(draws: nat -> Sample, start: nat, k: nat, i: nat)
    requires i < k
    ensures var s := Scan(draws, start, k);
            var at := Scan(draws, start, i).cursor;
            && s.decisions[i] == draws(at)
            && s.pixels[i] == (if draws(at) > RedrawThreshold then ColorAt(draws, at + 1)
                               else if i == 0 then ColorAt(draws, start)
                               else s.pixels[i - 1])
  {
    ScanPrefix(draws, start, i + 1, k);
    var s := Scan(draws, start, k);
    var t := Scan(draws, start, i + 1);
    assert s.pixels[i] == s.pixels[..i + 1][i] == t.pixels[i];
    assert s.decisions[i] == s.decisions[..i + 1][i] == t.decisions[i];
    if i > 0 {
      ScanPrefix(draws, start, i, k);
      assert s.pixels[i - 1] == s.pixels[..i][i - 1];
    }
  }

  /** The samples a scan consumes: four for the starting colour, one decision
      per pixel and four more for every decision above the threshold. */
  lemma {:induction false} ScanSampleCount(draws: nat -> Sample, start: nat, k: nat)
    ensures var s := Scan(draws, start, k);
            s.cursor == start + 4 + k + 4 * Redraws(s.decisions)
    decreases k
  {
    if k > 0 {
      var prev := Scan(draws, start, k - 1);
      ScanSampleCount(draws, start, k - 1);
      StepSampleCount(draws, prev);
      assert Scan(draws, start, k) == Step(draws, prev);
    }
  }

  /** One pixel consumes its decision sample and, on a redraw, four more. */
  lemma StepSampleCount(draws: nat -> Sample, p: ScanState)
    ensures var s := Step(draws, p);
            var redraw := if draws(p.cursor) > RedrawThreshold then 1 else 0;
            s.cursor == p.cursor + 1 + 4 * redraw && Redraws(s.decisions) == Redraws(p.decisions) + redraw
  {
    var s := Step(draws, p);
    assert s.decisions[..|s.decisions| - 1] == p.decisions;
  }

  /** A regeneration depends only on the samples it consumes: replaying the
      same samples reproduces the same image and leaves the cursor at the same place. */
  lemma {:induction false} ScanDeterministic(d1: nat -> Sample, d2: nat -> Sample, start: nat, k: nat)
    requires forall n :: start <= n < Scan(d1, start, k).cursor ==> d1(n) == d2(n)
    ensures Scan(d1, start, k) == Scan(d2, start, k)
    decreases k
  {
    var s := Scan(d1, start, k);
    if k == 0 {
      assert d1(start) == d2(start) && d1(start + 1) == d2(start + 1);
      assert d1(start + 2) == d2(start + 2) && d1(start + 3) == d2(start + 3);
    } else {
      var p := Scan(d1, start, k - 1);
      assert s == Step(d1, p);
      ScanSampleCount(d1, start, k - 1);
      StepLocal(d1, d2, p, s.cursor);
      ScanDeterministic(d1, d2, start, k - 1);
    }
  }

  /** One step reads only the samples between its cursor and the cursor it leaves. */
  lemma StepLocal(d1: nat -> Sample, d2: nat -> Sample, p: ScanState, end: nat)
    requires end == Step(d1, p).cursor
    requires forall n :: p.cursor <= n < end ==> d1(n) == d2(n)
    ensures Step(d1, p) == Step(d2, p)
  {
    assert d1(p.cursor) == d2(p.cursor);
    if d1(p.cursor) > RedrawThreshold {
      assert ColorAt(d1, p.cursor + 1) == ColorAt(d2, p.cursor + 1) by {
        assert d1(p.cursor + 1) == d2(p.cursor + 1) && d1(p.cursor + 2) == d2(p.cursor + 2);
        assert d1(p.cursor + 3) == d2(p.cursor + 3) && d1(p.cursor + 4) == d2(p.cursor + 4);
      }
    }
  }

  /** A full regeneration consumes 4 + 2048 + 4 * (decisions above 0.89) samples. */
  lemma GenerateSampleCount(draws: nat -> Sample, start: nat)
    ensures var s := Generate(draws, start);
            |s.pixels| == PixelCount && |s.decisions| == PixelCount
            && s.cursor == start + 4 + PixelCount + 4 * Redraws(s.decisions)
  {
    ScanSampleCount(draws, start, PixelCount);
  }

  /** The pixel coordinates visited by the first k iterations of the scan:
      y outer, x inner. */
  function RowMajor(k: nat): seq<(int, int)>
  {
    seq(k, i => (i % Width, i / Width))
  }

  /** The scan's next visit extends the order by one coordinate. */
  lemma RowMajorExtend(k: nat)
    ensures RowMajor(k + 1) == RowMajor(k) + [(k % Width, k / Width)]
  {
    assert RowMajor(k + 1)[..k] == RowMajor(k);
  }

  /** Visit number y * 64 + x of the scan is pixel (x, y): a log that holds
      the first k visits, extended by a write of (x, y), holds the first k + 1. */
  lemma RowMajorNext(log: seq<(int, int)>, written: seq<(int, int)>, k: nat, x: int, y: int)
    requires 0 <= x < Width && 0 <= y && k == y * Width + x
    requires log == written + RowMajor(k)
    ensures log + [(x, y)] == written + RowMajor(k + 1)
  {
    RowMajorExtend(k);
    ScanIndexUnique(k, x, y);
  }

  /** Pixel (x, y) is the scan's visit number y * 64 + x and no other. */
  lemma ScanIndexUnique(n: int, x: int, y: int)
    requires 0 <= n && 0 <= x < Width && 0 <= y
    ensures (n % Width == x && n / Width == y) <==> n == y * Width + x
  {
  }

  lemma {:induction false} RowMajorCount(k: nat, x: int, y: int)
    requires 0 <= x < Width && 0 <= y
    ensures multiset(RowMajor(k))[(x, y)] == if y * Width + x < k then 1 else 0
    decreases k
  {
    if k > 0 {
      RowMajorCount(k - 1, x, y);
      var last := ((k - 1) % Width, (k - 1) / Width);
      RowMajorExtend(k - 1);
      assert multiset(RowMajor(k))[(x, y)] == multiset(RowMajor(k - 1))[(x, y)] + multiset([last])[(x, y)];
      ScanIndexUnique(k - 1, x, y);
    }
  }

  /** A regeneration visits pixel (i mod 64, i div 64) at its i-th step,
      visits every pixel of the 64x32 image exactly once and nothing outside it. */
  lemma RowMajorVisitsEachPixelOnce()
    ensures forall i :: 0 <= i < PixelCount ==> RowMajor(PixelCount)[i] == (i % Width, i / Width)
    ensures forall x, y :: 0 <= x < Width && 0 <= y < Height ==> multiset(RowMajor(PixelCount))[(x, y)] == 1
    ensures forall p :: p in RowMajor(PixelCount) ==> 0 <= p.0 < Width && 0 <= p.1 < Height
  {
    forall x, y | 0 <= x < Width && 0 <= y < Height
      ensures multiset(RowMajor(PixelCount))[(x, y)] == 1
    {
      RowMajorCount(PixelCount, x, y);
      assert y * Width + x < PixelCount;
    }
    forall p | p in RowMajor(PixelCount)
      ensures 0 <= p.0 < Width && 0 <= p.1 < Height
    {
      var i :| 0 <= i < PixelCount && RowMajor(PixelCount)[i] == p;
      assert i / Width < Height;
    }
  }

  /** Writing pixel k extends the written row-major prefix by that pixel. */
  lemma ImagePrefixStep(image: seq<Color>, k: nat, c: Color)
    requires k < |image|
    ensures image[k := c][..k + 1] == image[..k] + [c]
  {
  }

  /** The Texture2D holding the noise: a 64x32 grid of colours addressed
      pixels[x, y]. `image` is the same grid read row by row (pixel (x, y) at
      y * 64 + x); `writes` records the SetPixel calls made on it. */
  class NoiseTexture {
    const width: nat
    const height: nat
    const pixels: array2<Color>
    ghost var image: seq<Color>
    ghost var writes: seq<(int, int)>

    ghost predicate Valid()
      reads this, pixels
    {
      && width == Width && height == Height
      && pixels.Length0 == Width && pixels.Length1 == Height
      && |image| == PixelCount
      && forall x, y :: 0 <= x < Width && 0 <= y < Height ==> pixels[x, y] == image[y * Width + x]
    }

    constructor ()
      ensures Valid() && fresh(pixels) && writes == []
    {
      width, height := Width, Height;
      var black := Color(0.0, 0.0, 0.0, 0.0);
      pixels := new Color[Width, Height]((x, y) => black);
      image := seq(PixelCount, i => black);
      writes := [];
    }

    method SetPixel(x: int, y: int, c: Color)
      requires Valid() && 0 <= x < width && 0 <= y < height
      modifies this, pixels
      ensures Valid()
      ensures image == old(image)[y * Width + x := c]
      ensures writes == old(writes) + [(x, y)]
    {
      pixels[x, y] := c;
      image := image[y * Width + x := c];
      writes := writes + [(x, y)];
      forall i, j | 0 <= i < Width && 0 <= j < Height
        ensures pixels[i, j] == image[j * Width + i]
      {
        if i != x || j != y {
          ScanIndexUnique(j * Width + i, x, y);
        }
      }
    }
  }
}
