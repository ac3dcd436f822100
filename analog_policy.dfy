/**
  The shader constants the analog glitch pass derives from its four
  parameters, shared by both of its revisions, and the accumulation of the
  vertical-jump time over a run of frames. All of it is arithmetic over reals.
 */
module AnalogPolicy {
  import opened Engine

  const JumpRate: real := 11.3
  const ShakeScale: real := 0.2
  const DriftScale: real := 0.04
  const DriftRate: real := 606.11

  /** Clamp01(1 - 1.2 s): the scan-line jitter threshold. */
  function ScanLineThreshold(s: real): real
  {
    Clamp01(1.0 - s * 1.2)
  }

  /** 0.002 + 0.05 s^3: the scan-line jitter displacement. */
  function ScanLineDisplacement(s: real): real
  {
    0.002 + s * s * s * 0.05
  }

  /** The scan-line vector: displacement first, threshold second. */
  function ScanLineVector(s: real): Vec2
  {
    Vec2(ScanLineDisplacement(s), ScanLineThreshold(s))
  }

  /** How far one frame advances the vertical-jump time. */
  function JumpIncrement(deltaTime: real, verticalJump: real): real
  {
    deltaTime * verticalJump * JumpRate
  }

  /** The colour-drift vector: scaled drift first, scaled time second. */
  function DriftVector(colorDrift: real, time: real): Vec2
  {
    Vec2(colorDrift * DriftScale, time * DriftRate)
  }

  /** The four material properties one frame sets, over `props`: the
      scan-line vector, (verticalJump, the jump time after this frame's
      increment), the scaled shake and the drift vector. */
  function AnalogProps(props: map<ShaderProperty, Uniform>, scanLineJitter: real, verticalJump: real,
                       horizontalShake: real, colorDrift: real, jumpTime: real, time: real): (r: map<ShaderProperty, Uniform>)
    ensures r.Keys == props.Keys + {ScanLineJitter, VerticalJump, HorizontalShake, ColorDrift}
    ensures r[ScanLineJitter] == VectorValue(Vec2(ScanLineDisplacement(scanLineJitter), ScanLineThreshold(scanLineJitter)))
    ensures r[VerticalJump] == VectorValue(Vec2(verticalJump, jumpTime))
    ensures r[HorizontalShake] == FloatValue(horizontalShake * ShakeScale)
    ensures r[ColorDrift] == VectorValue(Vec2(colorDrift * DriftScale, time * DriftRate))
    ensures forall p :: p in props && p !in {ScanLineJitter, VerticalJump, HorizontalShake, ColorDrift} ==> r[p] == props[p]
  {
    props[ScanLineJitter := VectorValue(ScanLineVector(scanLineJitter))]
         [VerticalJump := VectorValue(Vec2(verticalJump, jumpTime))]
         [HorizontalShake := FloatValue(horizontalShake * ShakeScale)]
         [ColorDrift := VectorValue(DriftVector(colorDrift, time))]
  }

  /** The property writes both revisions make once the jump time has been
      advanced: the scan-line vector, the vertical jump with that time, the
      scaled shake and the drift vector. */
  method SetGlitchProperties(material: Material, scanLineJitter: real, verticalJump: real,
                             horizontalShake: real, colorDrift: real, jumpTime: real, time: real)
    modifies material
    ensures material.props == AnalogProps(old(material.props), scanLineJitter, verticalJump,
                                          horizontalShake, colorDrift, jumpTime, time)
  {
    var slThresh := Clamp01(1.0 - scanLineJitter * 1.2);
    var slDisp := 0.002 + scanLineJitter * scanLineJitter * scanLineJitter * 0.05;
    material.SetVector(ScanLineJitter, Vec2(slDisp, slThresh));

    material.SetVector(VerticalJump, Vec2(verticalJump, jumpTime));
    material.SetFloat(HorizontalShake, horizontalShake * ShakeScale);

    material.SetVector(ColorDrift, Vec2(colorDrift * DriftScale, time * DriftRate));
    assert Vec2(slDisp, slThresh) == ScanLineVector(scanLineJitter);
  }

  /** The threshold always lies in [0,1]; it is 1 at s = 0, 0 from s = 5/6
      on, and 1 - 1.2 s in between. */
  lemma ThresholdBounds(s: real)
    ensures 0.0 <= ScanLineThreshold(s) <= 1.0
    ensures s <= 0.0 ==> ScanLineThreshold(s) == 1.0
    ensures s >= 5.0 / 6.0 ==> ScanLineThreshold(s) == 0.0
    ensures 0.0 <= s <= 5.0 / 6.0 ==> ScanLineThreshold(s) == 1.0 - 1.2 * s
  {
  }

  /** More jitter never raises the threshold. */
  lemma ThresholdAntitone(s1: real, s2: real)
    requires s1 <= s2
    ensures ScanLineThreshold(s2) <= ScanLineThreshold(s1)
  {
  }

  lemma CubeMonotone(a: real, b: real)
    requires a <= b
    ensures a * a * a <= b * b * b
  {
    var q := a * a + a * b + b * b;
    var h := a + b / 2.0;
    assert q == h * h + 3.0 * (b * b) / 4.0;
    assert h * h >= 0.0 && b * b >= 0.0;
    assert (b - a) * q >= 0.0;
    assert b * b * b - a * a * a == (b - a) * q;
  }

  /** More jitter never lowers the displacement. */
  lemma DisplacementMonotone(s1: real, s2: real)
    requires s1 <= s2
    ensures ScanLineDisplacement(s1) <= ScanLineDisplacement(s2)
  {
    CubeMonotone(s1, s2);
  }

  /** On the declared range the displacement lies in [0.002, 0.052], with the
      ends reached at s = 0 and s = 1. */
  lemma DisplacementBounds(s: real)
    requires 0.0 <= s <= 1.0
    ensures 0.002 <= ScanLineDisplacement(s) <= 0.052
    ensures ScanLineDisplacement(0.0) == 0.002 && ScanLineDisplacement(1.0) == 0.052
  {
    CubeMonotone(0.0, s);
    CubeMonotone(s, 1.0);
  }

  /** At half jitter the threshold is 0.4 and the displacement 0.00825; at
      full jitter they are 0 and 0.052. */
  lemma HalfAndFullJitter()
    ensures ScanLineVector(0.5) == Vec2(0.00825, 0.4)
    ensures ScanLineVector(1.0) == Vec2(0.052, 0.0)
  {
  }

  /** One frame's inputs to the jump accumulation: the frame time, the
      vertical-jump value, and whether the pass gets past its gate that frame. */
  datatype Frame = Frame(deltaTime: real, verticalJump: real, renders: bool)

  /** The vertical-jump time after a run of frames: it starts at t0 and
      advances by one increment on each frame that renders, and only then. */
  function JumpTime(t0: real, frames: seq<Frame>): real
  {
    if frames == [] then t0
    else
      var last := frames[|frames| - 1];
      var t := JumpTime(t0, frames[..|frames| - 1]);
      if last.renders then t + JumpIncrement(last.deltaTime, last.verticalJump) else t
  }

  /** The same frames with every gate open. */
  function Ungated(frames: seq<Frame>): seq<Frame>
  {
    seq(|frames|, i requires 0 <= i < |frames| => frames[i].(renders := true))
  }

  /** Frames with non-negative frame times and jump values. */
  predicate Forward(frames: seq<Frame>)
  {
    forall i :: 0 <= i < |frames| ==> frames[i].deltaTime >= 0.0 && frames[i].verticalJump >= 0.0
  }

  lemma IncrementNonnegative(deltaTime: real, verticalJump: real)
    requires deltaTime >= 0.0 && verticalJump >= 0.0
    ensures JumpIncrement(deltaTime, verticalJump) >= 0.0
  {
    assert deltaTime * verticalJump >= 0.0;
  }

  /** Going forward the jump time never decreases: every prefix of a run ends
      no later than the whole run, which ends no earlier than t0. */
  lemma {:induction false} JumpTimeMonotone(t0: real, frames: seq<Frame>, i: nat)
    requires Forward(frames) && i <= |frames|
    ensures JumpTime(t0, frames[..i]) <= JumpTime(t0, frames)
    ensures t0 <= JumpTime(t0, frames)
    decreases |frames|
  {
    if frames == [] {
      assert frames[..i] == frames;
    } else {
      var init := frames[..|frames| - 1];
      var last := frames[|frames| - 1];
      assert Forward(init);
      IncrementNonnegative(last.deltaTime, last.verticalJump);
      if i == |frames| {
        assert frames[..i] == frames;
        JumpTimeMonotone(t0, init, 0);
      } else {
        assert frames[..i] == init[..i];
        JumpTimeMonotone(t0, init, i);
      }
    }
  }

  /** Going forward, a gated accumulator never runs ahead of one that renders
      every frame; they agree exactly when each gated frame adds nothing. */
  lemma {:induction false} GatedNeverAhead(t0: real, frames: seq<Frame>)
    requires Forward(frames)
    ensures JumpTime(t0, frames) <= JumpTime(t0, Ungated(frames))
    ensures (forall i :: 0 <= i < |frames| && !frames[i].renders ==>
               JumpIncrement(frames[i].deltaTime, frames[i].verticalJump) == 0.0)
            ==> JumpTime(t0, frames) == JumpTime(t0, Ungated(frames))
    decreases |frames|
  {
    if frames != [] {
      var init := frames[..|frames| - 1];
      var last := frames[|frames| - 1];
      assert Forward(init);
      assert Ungated(frames)[..|frames| - 1] == Ungated(init);
      IncrementNonnegative(last.deltaTime, last.verticalJump);
      GatedNeverAhead(t0, init);
    }
  }

  /** When no frame renders the jump time stays frozen at t0. */
  lemma {:induction false} NoneRenderedFreezes(t0: real, frames: seq<Frame>)
    requires forall i :: 0 <= i < |frames| ==> !frames[i].renders
    ensures JumpTime(t0, frames) == t0
    decreases |frames|
  {
    if frames != [] {
      NoneRenderedFreezes(t0, frames[..|frames| - 1]);
    }
  }

  /** n rendered frames of the same time step and jump value advance the
      jump time by exactly n increments. */
  lemma {:induction false} SteadyRate(t0: real, f: Frame, n: nat)
    requires f.renders
    ensures JumpTime(t0, seq(n, _ => f)) == t0 + (n as real) * JumpIncrement(f.deltaTime, f.verticalJump)
  {
    if n > 0 {
      SteadyRate(t0, f, n - 1);
      assert seq(n, _ => f)[..n - 1] == seq(n - 1, _ => f);
    }
  }
}
