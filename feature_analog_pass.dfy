/**
  AnalogGlitchFeature (RendererFeature revision). The feature holds a
  serialized material template, four plain float parameters that default to 0,
  and a lazily instantiated copy of the template. Its render pass runs every
  frame the copy exists, with no activity or camera gate: it copies the active
  texture into its own RenderTexture, writes _MainTex and the four glitch
  properties into the material, and blits back through it. It uses no
  temporary buffers.
 */
module FeatureAnalogPass {
  import opened Engine
  import opened AnalogPolicy
  import opened BufferPool

  /** The command buffer an executed frame records. */
  function FrameCommands(): seq<Command>
  {
    [Blit(ActiveTexture, MainTexture, false),
     Blit(MainTexture, ActiveTexture, true)]
  }

  /** The frame copies the active texture into the pass's own texture, then
      blends it back through the material; it touches no temporary buffer, so
      it leaves the pool exactly as it found it. */
  lemma FrameShape(held: set<BufferName>)
    ensures var cmds := FrameCommands();
            && cmds[0] == Blit(ActiveTexture, MainTexture, false)
            && cmds[|cmds| - 1] == Blit(MainTexture, ActiveTexture, true)
            && (forall c :: c in cmds ==> !IsPoolCommand(c) && Referenced(c) == {})
            && Replay(cmds, held) == Held(held)
  {
    ReplayUses(FrameCommands(), held);
  }

  class AnalogGlitchFeature {
    /** The serialized material the instance is copied from. */
    const material: Material?
    var materialInstance: Material?
    var scanLineJitter: real
    var verticalJump: real
    var horizontalShake: real
    var colorDrift: real

    /** The four parameters start at 0 and no instance exists yet. */
    constructor (material: Material?)
      ensures this.material == material && materialInstance == null
      ensures scanLineJitter == 0.0 && verticalJump == 0.0 && horizontalShake == 0.0 && colorDrift == 0.0
    {
      this.material := material;
      materialInstance := null;
      scanLineJitter, verticalJump, horizontalShake, colorDrift := 0.0, 0.0, 0.0, 0.0;
    }

    /** MaterialInstance: the first call that finds no instance copies the
        template into a fresh material; every later call returns that same
        instance. Without a template there is no instance. */
    method MaterialInstance() returns (m: Material?)
      modifies this`materialInstance
      ensures m == materialInstance
      ensures old(materialInstance) != null ==> m == old(materialInstance)
      ensures old(materialInstance) == null && material != null ==> m != null && fresh(m) && m.props == material.props
      ensures old(materialInstance) == null && material == null ==> m == null
    {
      if materialInstance == null && material != null {
        materialInstance := new Material.Clone(material);
      }
      m := materialInstance;
    }
  }

  /** Default parameters are all zero, and the properties are stored as set:
      unlike the volume parameters, nothing clamps them. */
  lemma DefaultsAndUnclamped(f: AnalogGlitchFeature, x: real)
    requires f.scanLineJitter == 0.0 && f.verticalJump == 0.0 && f.horizontalShake == 0.0 && f.colorDrift == 0.0
    ensures JumpIncrement(x, f.verticalJump) == 0.0
    ensures ScanLineVector(f.scanLineJitter) == Vec2(0.002, 1.0)
    ensures x > 1.0 ==> ScanLineVector(x).y == 0.0 && ScanLineDisplacement(x) > 0.052
  {
    if x > 1.0 {
      assert x * x > x by { assert x * x - x == x * (x - 1.0); }
      assert x * x * x > x * x by { assert x * x * x - x * x == (x * x) * (x - 1.0); }
    }
  }

  class CustomRenderPass {
    const feature: AnalogGlitchFeature
    var verticalJumpTime: real
    /** Every frame Execute has been called for, in order. */
    ghost var history: seq<Frame>

    /** The jump time is the accumulation, from 0, over the frames seen. */
    ghost predicate Valid()
      reads this
    {
      verticalJumpTime == JumpTime(0.0, history)
    }

    constructor (feature: AnalogGlitchFeature)
      ensures this.feature == feature && verticalJumpTime == 0.0 && history == [] && Valid()
    {
      this.feature := feature;
      verticalJumpTime := 0.0;
      history := [];
    }

    /** Execute: with no material (no instance and no template) it changes
        nothing but the ghost history; otherwise it uses the feature's single
        instance, advances the jump time, sets _MainTex and the four glitch
        properties, and submits FrameCommands. No volume or camera gates it. */
    method Execute(ctx: RenderContext, clock: Clock)
      requires Valid()
      modifies this, ctx, feature`materialInstance, feature.materialInstance
      ensures Valid()
      ensures history == old(history) + [Frame(clock.deltaTime, feature.verticalJump, feature.materialInstance != null)]
      ensures old(feature.materialInstance) == null && feature.material == null ==>
        && feature.materialInstance == null
        && verticalJumpTime == old(verticalJumpTime) && ctx.submitted == old(ctx.submitted)
      ensures old(feature.materialInstance) != null || feature.material != null ==>
        var m := feature.materialInstance;
        && m != null
        && (old(feature.materialInstance) != null ==> m == old(feature.materialInstance))
        && (old(feature.materialInstance) == null ==> fresh(m))
        && verticalJumpTime == old(verticalJumpTime) + JumpIncrement(clock.deltaTime, feature.verticalJump)
        && m.props == AnalogProps(
             old(if feature.materialInstance != null then feature.materialInstance.props else feature.material.props)
               [MainTex := TextureValue(MainTexture)],
             feature.scanLineJitter, feature.verticalJump, feature.horizontalShake, feature.colorDrift,
             verticalJumpTime, clock.time)
        && ctx.submitted == old(ctx.submitted) + FrameCommands()
    {
      ghost var props0 := if feature.materialInstance != null then feature.materialInstance.props
                          else if feature.material != null then feature.material.props else map[];
      var material := feature.MaterialInstance();
      history := history + [Frame(clock.deltaTime, feature.verticalJump, material != null)];
      if material == null {
        return;
      }
      var cmd: seq<Command> := [];
      cmd := cmd + [Blit(ActiveTexture, MainTexture, false)];
      material.SetTexture(MainTex, MainTexture);

      verticalJumpTime := verticalJumpTime + clock.deltaTime * feature.verticalJump * JumpRate;

      SetGlitchProperties(material, feature.scanLineJitter, feature.verticalJump, feature.horizontalShake,
                          feature.colorDrift, verticalJumpTime, clock.time);
      assert material.props == AnalogProps(props0[MainTex := TextureValue(MainTexture)],
                                           feature.scanLineJitter, feature.verticalJump, feature.horizontalShake,
                                           feature.colorDrift, verticalJumpTime, clock.time);
      cmd := cmd + [Blit(MainTexture, ActiveTexture, true)];

      assert cmd == FrameCommands();
      ctx.ExecuteCommandBuffer(cmd);
    }
  }
}
