/**
  What both revisions of the digital glitch pass share: when to regenerate the
  noise image, when to refresh each trash frame, which trash frame the blend
  reads, and the skeleton of every recorded frame (acquire the three buffers,
  copy the source, ..., release the three buffers).
 */
module DigitalPolicy {
  import opened Engine
  import opened BufferPool

  const Trash1Period: nat := 13
  const Trash2Period: nat := 73
  const CoinThreshold: real := 0.5

  /** Mathf.Lerp(0.9f, 0.5f, intensity): the sample a Configure call must exceed to regenerate. */
  function RegenThreshold(intensity: real): real
  {
    Lerp(0.9, 0.5, intensity)
  }

  predicate Regenerates(intensity: real, r: real)
  {
    r > RegenThreshold(intensity)
  }

  /** The threshold is 0.9 - 0.4 * intensity on the declared range and, because
      Lerp clamps, always lies in [0.5, 0.9]: regeneration never becomes certain
      nor impossible for a sample in [0,1). */
  lemma RegenThresholdBounds(intensity: real)
    ensures 0.5 <= RegenThreshold(intensity) <= 0.9
    ensures 0.0 <= intensity <= 1.0 ==> RegenThreshold(intensity) == 0.9 - 0.4 * intensity
    ensures intensity <= 0.0 ==> RegenThreshold(intensity) == 0.9
    ensures intensity >= 1.0 ==> RegenThreshold(intensity) == 0.5
  {
  }

  /** Higher intensity regenerates more often: a sample that regenerates at
      some intensity also regenerates at any higher one. */
  lemma RegenerationMonotone(i1: real, i2: real, r: real)
    requires i1 <= i2 && Regenerates(i1, r)
    ensures Regenerates(i2, r)
  {
    assert Clamp01(i1) <= Clamp01(i2);
  }

  predicate RefreshesTrash1(frameCount: nat)
  {
    frameCount % Trash1Period == 0
  }

  predicate RefreshesTrash2(frameCount: nat)
  {
    frameCount % Trash2Period == 0
  }

  /** The coin flip: trashFrame1 when the sample exceeds 0.5, trashFrame2 otherwise. */
  function SelectedTrash(coin: real): BufferName
  {
    if coin > CoinThreshold then TrashFrame1 else TrashFrame2
  }

  /** How many of the frame counts 0 .. n-1 are multiples of `period`. */
  function Multiples(period: nat, n: nat): nat
    requires period > 0
  {
    if n == 0 then 0 else Multiples(period, n - 1) + (if (n - 1) % period == 0 then 1 else 0)
  }

  lemma MulNonneg(a: int, b: int)
    requires a >= 0 && b >= 0
    ensures a * b >= 0
  {
  }

  /** Integer division is determined by any quotient-remainder decomposition. */
  lemma DivUnique(a: int, p: int, q: int, r: int)
    requires p > 0 && 0 <= r < p && a == p * q + r
    ensures a / p == q
  {
    var q', r' := a / p, a % p;
    assert a == p * q' + r';
    assert p * (q' - q) == r - r';
    SmallMultipleIsZero(p, q' - q);
  }

  /** The only multiple of p strictly between -p and p is 0. */
  lemma SmallMultipleIsZero(p: int, d: int)
    requires p > 0 && -p < p * d < p
    ensures d == 0
  {
    if d >= 1 {
      MulNonneg(p, d - 1);
      assert false;
    } else if d <= -1 {
      MulNonneg(p, -d - 1);
      assert false;
    }
  }

  /** Among frame counts 0 .. n-1, ceil(n / period) are multiples of `period`. */
  lemma {:induction false} MultiplesCount(period: nat, n: nat)
    requires period > 0
    ensures Multiples(period, n) == (n + period - 1) / period
  {
    if n == 0 {
      DivUnique(period - 1, period, 0, period - 1);
    } else {
      MultiplesCount(period, n - 1);
      var m := n - 1;
      var q, r := m / period, m % period;
      DivUnique(m + period, period, q + 1, r);
      if r == 0 {
        DivUnique(m + period - 1, period, q, period - 1);
      } else {
        DivUnique(m + period - 1, period, q + 1, r - 1);
      }
    }
  }

  const AllFrames: set<BufferName> := {MainFrame, TrashFrame1, TrashFrame2}

  /** The three acquisitions, each with depth 0, that open every recorded frame. */
  function Acquires(): seq<Command>
  {
    [GetTemporaryRT(MainFrame, 0), GetTemporaryRT(TrashFrame1, 0), GetTemporaryRT(TrashFrame2, 0)]
  }

  /** The copies of the source: always into mainFrame, into each trash frame on its cadence. */
  function Copies(frameCount: nat): seq<Command>
  {
    [Blit(CameraColor, Temporary(MainFrame), false)]
    + (if RefreshesTrash1(frameCount) then [Blit(CameraColor, Temporary(TrashFrame1), false)] else [])
    + (if RefreshesTrash2(frameCount) then [Blit(CameraColor, Temporary(TrashFrame2), false)] else [])
  }

  function Releases(): seq<Command>
  {
    [ReleaseTemporaryRT(MainFrame), ReleaseTemporaryRT(TrashFrame1), ReleaseTemporaryRT(TrashFrame2)]
  }

  /** A frame's middle: it neither acquires nor releases, and it refers only to
      the three frame buffers. */
  predicate FramesOnly(middle: seq<Command>)
  {
    forall i :: 0 <= i < |middle| ==> !IsPoolCommand(middle[i]) && Referenced(middle[i]) <= AllFrames
  }

  lemma CopiesFramesOnly(frameCount: nat)
    ensures FramesOnly(Copies(frameCount))
  {
  }

  lemma FramesOnlyAppend(a: seq<Command>, b: seq<Command>)
    requires FramesOnly(a) && FramesOnly(b)
    ensures FramesOnly(a + b)
  {
    forall i | 0 <= i < |a + b|
      ensures !IsPoolCommand((a + b)[i]) && Referenced((a + b)[i]) <= AllFrames
    {
      if i >= |a| {
        assert (a + b)[i] == b[i - |a|];
      }
    }
  }

  /** Any middle that only uses the three buffers, framed by the acquires and
      the releases, is balanced. */
  lemma FramedBalanced(middle: seq<Command>)
    requires FramesOnly(middle)
    ensures Balanced(Acquires() + middle + Releases())
  {
    var all := AllFrames;
    ReplayAppend(Acquires() + middle, Releases(), {});
    ReplayAppend(Acquires(), middle, {});
    assert Replay(Acquires(), {}) == Held(all);
    ReplayUses(middle, all);
    assert Replay(Releases(), all) == Held({});
  }

  /** Framing any pool-free middle between the acquires and the releases
      acquires and releases each buffer exactly once, always with depth 0. */
  lemma FramedPoolCounts(middle: seq<Command>, b: BufferName)
    requires FramesOnly(middle)
    ensures var cmds := Acquires() + middle + Releases();
            && multiset(cmds)[GetTemporaryRT(b, 0)] == 1
            && multiset(cmds)[ReleaseTemporaryRT(b)] == 1
            && forall c :: c in cmds && c.GetTemporaryRT? ==> c.depthBufferBits == 0
  {
    assert GetTemporaryRT(b, 0) !in middle && ReleaseTemporaryRT(b) !in middle;
  }

  /** How many of the frames recorded at frame counts 0 .. n-1 copy the source into buffer b. */
  function CopiesInto(b: BufferName, n: nat): nat
  {
    if n == 0 then 0
    else CopiesInto(b, n - 1) + (if Blit(CameraColor, Temporary(b), false) in Copies(n - 1) then 1 else 0)
  }

  /** Over frame counts 0 .. n-1 mainFrame receives a copy on every frame and
      each trash frame on the multiples of its period: ceil(n / 13) and
      ceil(n / 73) times. */
  lemma {:induction false} RefreshCount(n: nat)
    ensures CopiesInto(MainFrame, n) == n
    ensures CopiesInto(TrashFrame1, n) == (n + Trash1Period - 1) / Trash1Period
    ensures CopiesInto(TrashFrame2, n) == (n + Trash2Period - 1) / Trash2Period
  {
    CopiesMultiples(n);
    MultiplesCount(Trash1Period, n);
    MultiplesCount(Trash2Period, n);
  }

  lemma {:induction false} CopiesMultiples(n: nat)
    ensures CopiesInto(MainFrame, n) == n
    ensures CopiesInto(TrashFrame1, n) == Multiples(Trash1Period, n)
    ensures CopiesInto(TrashFrame2, n) == Multiples(Trash2Period, n)
  {
    if n > 0 {
      CopiesMultiples(n - 1);
    }
  }

  /** The frames recorded at frame counts 0 .. 99 copy into trashFrame1 8 times
      (0, 13, ..., 91) and into trashFrame2 twice (0 and 73). */
  lemma HundredFrameCadence()
    ensures CopiesInto(TrashFrame1, 100) == 8
    ensures CopiesInto(TrashFrame2, 100) == 2
  {
    RefreshCount(100);
  }
}
