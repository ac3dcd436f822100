/**
  AnalogGlitchRenderPass (Runtime revision). When it gets past its gate, each
  frame advances the vertical-jump time, writes the four glitch properties
  into its material, and records one command buffer: copy the source into a
  temporary mainFrame, bind it as _MainTex, blit it back through the material
  and release it.
 */
module RuntimeAnalogPass {
  import opened Engine
  import opened AnalogPolicy
  import opened BufferPool
  import opened RuntimeAnalogVolume

  /** The command buffer an executed frame records. */
  function FrameCommands(): seq<Command>
  {
    [GetTemporaryRT(MainFrame, 0),
     Blit(CameraColor, Temporary(MainFrame), false),
     SetGlobalTexture(MainTex, Temporary(MainFrame)),
     Blit(Temporary(MainFrame), CameraColor, true),
     ReleaseTemporaryRT(MainFrame)]
  }

  /** Buffer lifecycle: starting with nothing held, the frame never uses
      mainFrame outside its acquire and release and ends with nothing held. */
  lemma FrameBalanced()
    ensures Balanced(FrameCommands())
  {
    var acquire := [GetTemporaryRT(MainFrame, 0)];
    var middle := [Blit(CameraColor, Temporary(MainFrame), false),
                   SetGlobalTexture(MainTex, Temporary(MainFrame)),
                   Blit(Temporary(MainFrame), CameraColor, true)];
    var release := [ReleaseTemporaryRT(MainFrame)];
    assert FrameCommands() == acquire + middle + release;
    ReplayAppend(acquire + middle, release, {});
    ReplayAppend(acquire, middle, {});
    assert Replay(acquire, {}) == Held({MainFrame});
    ReplayUses(middle, {MainFrame});
    assert Replay(release, {MainFrame}) == Held({});
  }

  /** mainFrame is the only buffer the frame touches; it is acquired once,
      with depth 0, and released once. */
  lemma FramePoolCounts()
    ensures multiset(FrameCommands())[GetTemporaryRT(MainFrame, 0)] == 1
    ensures multiset(FrameCommands())[ReleaseTemporaryRT(MainFrame)] == 1
    ensures forall c :: c in FrameCommands() ==> Referenced(c) <= {MainFrame}
    ensures forall c :: c in FrameCommands() && IsPoolCommand(c) ==> c.buffer == MainFrame
  {
  }

  /** Order: the source is copied into mainFrame first, mainFrame is bound as
      _MainTex before the only material blit, which writes the result back to
      the source; the release comes last. */
  lemma FrameOrder()
    ensures var cmds := FrameCommands();
            && cmds[1] == Blit(CameraColor, Temporary(MainFrame), false)
            && cmds[2] == SetGlobalTexture(MainTex, Temporary(MainFrame))
            && cmds[3] == Blit(Temporary(MainFrame), CameraColor, true)
            && cmds[|cmds| - 1] == ReleaseTemporaryRT(MainFrame)
            && forall i :: 0 <= i < |cmds| && i != 3 ==> !(cmds[i].Blit? && cmds[i].withMaterial)
  {
  }

  class AnalogGlitchRenderPass {
    const glitchMaterial: Material?
    var verticalJumpTime: real
    /** Every frame Execute has been called for, in order. */
    ghost var history: seq<Frame>

    /** The jump time is the accumulation, from 0, over the frames seen. */
    ghost predicate Valid()
      reads this
    {
      verticalJumpTime == JumpTime(0.0, history)
    }

    /** isActive: a material, a volume on the stack, and an active volume. */
    predicate IsActive(volume: Option<AnalogGlitchVolume>)
    {
      glitchMaterial != null && volume.Some? && RuntimeAnalogVolume.IsActive(volume.value)
    }

    /** Execute's gate: active, post-processing enabled, not a scene-view camera. */
    predicate Runs(volume: Option<AnalogGlitchVolume>, camera: CameraData)
    {
      IsActive(volume) && camera.postProcessEnabled && !camera.isSceneViewCamera
    }

    /** What one call contributes to the jump accumulation. */
    function FrameOf(volume: Option<AnalogGlitchVolume>, camera: CameraData, clock: Clock): Frame
    {
      Frame(clock.deltaTime, if volume.Some? then volume.value.verticalJump.value else 0.0, Runs(volume, camera))
    }

    constructor (material: Material?)
      ensures glitchMaterial == material && verticalJumpTime == 0.0 && history == [] && Valid()
    {
      glitchMaterial := material;
      verticalJumpTime := 0.0;
      history := [];
    }

    /** Execute: gated off, it changes nothing but the ghost history; otherwise
        it advances the jump time by one increment, sets the four glitch
        properties (the vertical jump with the advanced time) and submits
        FrameCommands. */
    method Execute(ctx: RenderContext, camera: CameraData, volume: Option<AnalogGlitchVolume>, clock: Clock)
      requires Valid()
      modifies this, ctx, glitchMaterial
      ensures Valid() && history == old(history) + [FrameOf(volume, camera, clock)]
      ensures !Runs(volume, camera) ==>
        && verticalJumpTime == old(verticalJumpTime) && ctx.submitted == old(ctx.submitted)
        && (glitchMaterial != null ==> glitchMaterial.props == old(glitchMaterial.props))
      ensures Runs(volume, camera) ==>
        var v := volume.value;
        && verticalJumpTime == old(verticalJumpTime) + JumpIncrement(clock.deltaTime, v.verticalJump.value)
        && glitchMaterial.props == AnalogProps(old(glitchMaterial.props), v.scanLineJitter.value, v.verticalJump.value,
                                               v.horizontalShake.value, v.colorDrift.value, verticalJumpTime, clock.time)
        && ctx.submitted == old(ctx.submitted) + FrameCommands()
    {
      history := history + [FrameOf(volume, camera, clock)];
      if !IsActive(volume) || !camera.postProcessEnabled || camera.isSceneViewCamera {
        return;
      }
      var source := CameraColor;
      var cmd: seq<Command> := [];
      cmd := cmd + [GetTemporaryRT(MainFrame, 0)];
      cmd := cmd + [Blit(source, Temporary(MainFrame), false)];

      var scanLineJitter := volume.value.scanLineJitter.value;
      var verticalJump := volume.value.verticalJump.value;
      var horizontalShake := volume.value.horizontalShake.value;
      var colorDrift := volume.value.colorDrift.value;

      verticalJumpTime := verticalJumpTime + clock.deltaTime * verticalJump * JumpRate;

      SetGlitchProperties(glitchMaterial, scanLineJitter, verticalJump, horizontalShake, colorDrift,
                          verticalJumpTime, clock.time);

      cmd := cmd + [SetGlobalTexture(MainTex, Temporary(MainFrame))];
      cmd := cmd + [Blit(Temporary(MainFrame), source, true)];
      cmd := cmd + [ReleaseTemporaryRT(MainFrame)];

      assert cmd == FrameCommands();
      ctx.ExecuteCommandBuffer(cmd);
    }
  }

  /** Over a run of calls with in-range volumes and non-negative frame times
      the jump time never decreases and never exceeds what it would be had
      every frame rendered. */
  lemma JumpTimeForward(history: seq<Frame>)
    requires Forward(history)
    ensures 0.0 <= JumpTime(0.0, history) <= JumpTime(0.0, Ungated(history))
  {
    JumpTimeMonotone(0.0, history, 0);
    GatedNeverAhead(0.0, history);
  }

  /** An in-range volume and a non-negative frame time make a forward frame. */
  lemma FrameOfForward(pass: AnalogGlitchRenderPass, volume: Option<AnalogGlitchVolume>, camera: CameraData, clock: Clock)
    requires clock.deltaTime >= 0.0
    requires volume.Some? ==> volume.value.verticalJump.InRange() && volume.value.verticalJump.min == 0.0
    ensures Forward([pass.FrameOf(volume, camera, clock)])
  {
  }
}
