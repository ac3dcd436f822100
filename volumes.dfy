/**
  The volume components that carry the glitch parameters, and their activity
  predicates. Every parameter is declared `ClampedFloatParameter(0, 0, 1)`.
 */
module RuntimeAnalogVolume {
  import opened Engine

  /** AnalogGlitchVolume (Runtime): four parameters in [0,1]. */
  datatype AnalogGlitchVolume = AnalogGlitchVolume(
    scanLineJitter: ClampedFloatParameter,
    verticalJump: ClampedFloatParameter,
    horizontalShake: ClampedFloatParameter,
    colorDrift: ClampedFloatParameter)

  /** The volume as declared, before anything is set. */
  function Declared(): AnalogGlitchVolume
  {
    AnalogGlitchVolume(UnitParameter(), UnitParameter(), UnitParameter(), UnitParameter())
  }

  predicate IsActive(v: AnalogGlitchVolume)
  {
    v.scanLineJitter.value > 0.0 || v.verticalJump.value > 0.0 ||
    v.horizontalShake.value > 0.0 || v.colorDrift.value > 0.0
  }

  /** Every parameter of the declared volume is 0 with range [0,1], so a
      freshly declared volume is inactive. */
  lemma DeclaredIsInactive()
    ensures var v := Declared();
            && v.scanLineJitter == ClampedFloatParameter(0.0, 0.0, 1.0)
            && v.verticalJump == ClampedFloatParameter(0.0, 0.0, 1.0)
            && v.horizontalShake == ClampedFloatParameter(0.0, 0.0, 1.0)
            && v.colorDrift == ClampedFloatParameter(0.0, 0.0, 1.0)
            && !IsActive(v)
  {
  }

  /** Setting any single parameter to a positive value through its clamping
      setter activates the volume, whatever the other three hold. */
  lemma SettingOneParameterActivates(v: AnalogGlitchVolume, x: real)
    requires x > 0.0
    requires v.scanLineJitter.min == 0.0 && v.scanLineJitter.max == 1.0
    requires v.verticalJump.min == 0.0 && v.verticalJump.max == 1.0
    requires v.horizontalShake.min == 0.0 && v.horizontalShake.max == 1.0
    requires v.colorDrift.min == 0.0 && v.colorDrift.max == 1.0
    ensures IsActive(v.(scanLineJitter := v.scanLineJitter.WithValue(x)))
    ensures IsActive(v.(verticalJump := v.verticalJump.WithValue(x)))
    ensures IsActive(v.(horizontalShake := v.horizontalShake.WithValue(x)))
    ensures IsActive(v.(colorDrift := v.colorDrift.WithValue(x)))
  {
  }

  /** A volume whose four values are all at most 0 is inactive, and one with a
      positive value is active. */
  lemma ActiveIffSomePositive(v: AnalogGlitchVolume)
    ensures !IsActive(v) <==>
      v.scanLineJitter.value <= 0.0 && v.verticalJump.value <= 0.0 &&
      v.horizontalShake.value <= 0.0 && v.colorDrift.value <= 0.0
  {
  }

  /** Within the declared range the volume is active iff some parameter is non-zero. */
  lemma ActiveInRange(v: AnalogGlitchVolume)
    requires v.scanLineJitter.InRange() && v.scanLineJitter.min == 0.0
    requires v.verticalJump.InRange() && v.verticalJump.min == 0.0
    requires v.horizontalShake.InRange() && v.horizontalShake.min == 0.0
    requires v.colorDrift.InRange() && v.colorDrift.min == 0.0
    ensures IsActive(v) <==>
      v.scanLineJitter.value != 0.0 || v.verticalJump.value != 0.0 ||
      v.horizontalShake.value != 0.0 || v.colorDrift.value != 0.0
  {
  }
}

module RuntimeDigitalVolume {
  import opened Engine

  /** DigitalGlitchVolume (Runtime): one intensity in [0,1]. */
  datatype DigitalGlitchVolume = DigitalGlitchVolume(intensity: ClampedFloatParameter)

  function Declared(): DigitalGlitchVolume
  {
    DigitalGlitchVolume(UnitParameter())
  }

  predicate IsActive(v: DigitalGlitchVolume)
  {
    v.intensity.value > 0.0
  }

  /** The declared intensity is 0 with range [0,1]; the declared volume is inactive. */
  lemma DeclaredIsInactive()
    ensures Declared().intensity == ClampedFloatParameter(0.0, 0.0, 1.0)
    ensures !IsActive(Declared())
  {
  }

  /** Within the declared range the volume is active iff intensity is non-zero,
      and setting intensity through the clamping setter activates it iff the
      value set is positive. */
  lemma ActiveInRange(v: DigitalGlitchVolume, x: real)
    requires v.intensity.InRange() && v.intensity.min == 0.0 && v.intensity.max == 1.0
    ensures IsActive(v) <==> v.intensity.value != 0.0
    ensures IsActive(v.(intensity := v.intensity.WithValue(x))) <==> x > 0.0
  {
  }
}

module FeatureDigitalVolume {
  import opened Engine

  /** DigitalGlitchVolume (RendererFeature namespace): one intensity in [0,1]. */
  datatype DigitalGlitchVolume = DigitalGlitchVolume(intensity: ClampedFloatParameter)

  function Declared(): DigitalGlitchVolume
  {
    DigitalGlitchVolume(UnitParameter())
  }

  predicate IsActive(v: DigitalGlitchVolume)
  {
    v.intensity.value > 0.0
  }

  /** The declared intensity is 0 with range [0,1]; the declared volume is inactive. */
  lemma DeclaredIsInactive()
    ensures Declared().intensity == ClampedFloatParameter(0.0, 0.0, 1.0)
    ensures !IsActive(Declared())
  {
  }

  /** Within the declared range the volume is active iff intensity is non-zero,
      and setting intensity through the clamping setter activates it iff the
      value set is positive. */
  lemma ActiveInRange(v: DigitalGlitchVolume, x: real)
    requires v.intensity.InRange() && v.intensity.min == 0.0 && v.intensity.max == 1.0
    ensures IsActive(v) <==> v.intensity.value != 0.0
    ensures IsActive(v.(intensity := v.intensity.WithValue(x))) <==> x > 0.0
  {
  }
}
