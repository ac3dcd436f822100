/**
  DigitalGlitchRenderPass (Runtime revision). Each frame the renderer calls
  Configure, which may regenerate the noise image, and then Execute, which
  records one command buffer: three temporary buffers, the copies into them on
  the 13/73 cadence, the bindings for the glitch shader, the final blit and
  the three releases. Intensity and the noise texture are bound as global
  shader properties through the command buffer.
 */
module RuntimeDigitalPass {
  import opened Engine
  import opened Noise
  import opened DigitalPolicy
  import opened BufferPool
  import opened RuntimeDigitalVolume

  /** The shader bindings and the final blit from mainFrame back to the source. */
  function Composite(coin: real, intensity: real): seq<Command>
  {
    [SetGlobalFloat(Intensity, intensity),
     SetGlobalTexture(NoiseTex, NoiseTexture),
     SetGlobalTexture(MainTex, Temporary(MainFrame)),
     SetGlobalTexture(TrashTex, Temporary(SelectedTrash(coin))),
     Blit(Temporary(MainFrame), CameraColor, true)]
  }

  /** The command buffer an executed frame records, given the frame count, the
      coin-flip sample and the intensity. */
  function FrameCommands(frameCount: nat, coin: real, intensity: real): seq<Command>
  {
    Acquires() + Copies(frameCount) + Composite(coin, intensity) + Releases()
  }

  lemma MiddleFramesOnly(frameCount: nat, coin: real, intensity: real)
    ensures FramesOnly(Copies(frameCount) + Composite(coin, intensity))
  {
    CopiesFramesOnly(frameCount);
    assert FramesOnly(Composite(coin, intensity));
    FramesOnlyAppend(Copies(frameCount), Composite(coin, intensity));
  }

  /** Buffer lifecycle: starting with nothing held, the frame never uses a
      buffer it has not acquired or has already released, never acquires a
      held one, and ends with all three released. */
  lemma FrameBalanced(frameCount: nat, coin: real, intensity: real)
    ensures Balanced(FrameCommands(frameCount, coin, intensity))
  {
    var middle := Copies(frameCount) + Composite(coin, intensity);
    assert FrameCommands(frameCount, coin, intensity) == Acquires() + middle + Releases();
    MiddleFramesOnly(frameCount, coin, intensity);
    FramedBalanced(middle);
  }

  /** Each of the three buffers is acquired exactly once, with depth 0, and
      released exactly once; no buffer is acquired with any other depth. */
  lemma FrameAcquiresEachOnce(frameCount: nat, coin: real, intensity: real, b: BufferName)
    ensures var cmds := FrameCommands(frameCount, coin, intensity);
            && multiset(cmds)[GetTemporaryRT(b, 0)] == 1
            && multiset(cmds)[ReleaseTemporaryRT(b)] == 1
            && forall c :: c in cmds && c.GetTemporaryRT? ==> c.depthBufferBits == 0
  {
    var middle := Copies(frameCount) + Composite(coin, intensity);
    assert FrameCommands(frameCount, coin, intensity) == Acquires() + middle + Releases();
    MiddleFramesOnly(frameCount, coin, intensity);
    FramedPoolCounts(middle, b);
  }

  /** Copy rules: the source always goes into mainFrame, into trashFrame1 iff
      the frame count is a multiple of 13, into trashFrame2 iff it is a
      multiple of 73; nothing else is copied from the source. */
  lemma FrameCopyRules(frameCount: nat, coin: real, intensity: real)
    ensures var cmds := FrameCommands(frameCount, coin, intensity);
            && Blit(CameraColor, Temporary(MainFrame), false) in cmds
            && (Blit(CameraColor, Temporary(TrashFrame1), false) in cmds <==> frameCount % 13 == 0)
            && (Blit(CameraColor, Temporary(TrashFrame2), false) in cmds <==> frameCount % 73 == 0)
            && forall c :: c in cmds && c.Blit? && c.src == CameraColor ==> !c.withMaterial && c.dst.Temporary?
  {
    var cmds := FrameCommands(frameCount, coin, intensity);
    assert cmds == Acquires() + Copies(frameCount) + Composite(coin, intensity) + Releases();
  }

  /** The trash texture is bound exactly once, as the last binding before the
      blend (five commands from the end): trashFrame1 iff the coin-flip sample
      exceeds 0.5, otherwise trashFrame2. */
  lemma FrameTrashSelection(frameCount: nat, coin: real, intensity: real)
    ensures var cmds := FrameCommands(frameCount, coin, intensity);
            var n := |cmds|;
            && n >= 12
            && cmds[n - 5] == SetGlobalTexture(TrashTex, Temporary(if coin > 0.5 then TrashFrame1 else TrashFrame2))
            && forall i :: 0 <= i < n && i != n - 5 ==> !(cmds[i].SetGlobalTexture? && cmds[i].prop == TrashTex)
  {
    var cmds := FrameCommands(frameCount, coin, intensity);
    var head := Acquires() + Copies(frameCount);
    assert cmds == head + Composite(coin, intensity) + Releases();
    forall i | 0 <= i < |cmds| && i != |cmds| - 5
      ensures !(cmds[i].SetGlobalTexture? && cmds[i].prop == TrashTex)
    {
      if i < |head| {
        assert cmds[i] == head[i];
      }
    }
  }

  /** The blend: the only material blit reads mainFrame and writes the source,
      after every copy and before every release, with the intensity, the noise
      texture and mainFrame bound. */
  lemma FrameComposite(frameCount: nat, coin: real, intensity: real)
    ensures var cmds := FrameCommands(frameCount, coin, intensity);
            var n := |cmds|;
            && n >= 12
            && cmds[n - 4] == Blit(Temporary(MainFrame), CameraColor, true)
            && cmds[n - 3..] == Releases()
            && (forall i :: 0 <= i < n - 4 ==> !(cmds[i].Blit? && cmds[i].withMaterial))
            && SetGlobalFloat(Intensity, intensity) in cmds[..n - 4]
            && SetGlobalTexture(NoiseTex, NoiseTexture) in cmds[..n - 4]
            && SetGlobalTexture(MainTex, Temporary(MainFrame)) in cmds[..n - 4]
  {
    var cmds := FrameCommands(frameCount, coin, intensity);
    var binds := [SetGlobalFloat(Intensity, intensity),
                  SetGlobalTexture(NoiseTex, NoiseTexture),
                  SetGlobalTexture(MainTex, Temporary(MainFrame)),
                  SetGlobalTexture(TrashTex, Temporary(SelectedTrash(coin)))];
    var head := Acquires() + Copies(frameCount) + binds;
    assert Composite(coin, intensity) == binds + [Blit(Temporary(MainFrame), CameraColor, true)];
    assert cmds == head + [Blit(Temporary(MainFrame), CameraColor, true)] + Releases();
    assert cmds[..|cmds| - 4] == head;
    assert binds[0] in head && binds[1] in head && binds[2] in head;
    forall i | 0 <= i < |cmds| - 4
      ensures !(cmds[i].Blit? && cmds[i].withMaterial)
    {
      assert cmds[i] == head[i];
    }
  }

  class DigitalGlitchRenderPass {
    const glitchMaterial: Material?
    const random: RandomStream
    const noise: NoiseTexture

    ghost predicate Valid()
      reads this, noise, noise.pixels
    {
      noise.Valid()
    }

    /** isActive: a material, a volume on the stack, and an active volume. */
    predicate IsActive(volume: Option<DigitalGlitchVolume>)
    {
      glitchMaterial != null && volume.Some? && RuntimeDigitalVolume.IsActive(volume.value)
    }

    /** Execute's gate: active, post-processing enabled, not a scene-view camera. */
    predicate Runs(volume: Option<DigitalGlitchVolume>, camera: CameraData)
    {
      IsActive(volume) && camera.postProcessEnabled && !camera.isSceneViewCamera
    }

    /** The constructor builds the 64x32 texture and fills it once from the
        stream, so the texture is fully written before any frame. */
    constructor (material: Material?, draws: nat -> Sample)
      ensures Valid() && fresh(noise) && fresh(noise.pixels) && fresh(random)
      ensures glitchMaterial == material && random.draws == draws
      ensures noise.image == Generate(draws, 0).pixels && random.cursor == Generate(draws, 0).cursor
      ensures noise.writes == RowMajor(PixelCount)
    {
      glitchMaterial := material;
      random := new RandomStream(draws);
      noise := new NoiseTexture();
      new;
      UpdateNoiseTexture();
    }

    /** randomColor: four consecutive samples, in r, g, b, a order. */
    method RandomColor() returns (c: Color)
      modifies random
      ensures c == ColorAt(random.draws, old(random.cursor))
      ensures random.cursor == old(random.cursor) + 4
    {
      var r := random.NextDouble();
      var g := random.NextDouble();
      var b := random.NextDouble();
      var a := random.NextDouble();
      c := Color(r, g, b, a);
    }

    /** Where a regeneration that began at sample `start` stands after k
        pixels: the current colour, the stream and the image agree with `Scan`,
        and the texture's log holds `written` followed by the first k visits. */
    ghost predicate Scanned(k: nat, color: Color, start: nat, written: seq<(int, int)>)
      reads random, noise
    {
      var st := Scan(random.draws, start, k);
      && color == st.color && random.cursor == st.cursor
      && k <= |noise.image| && noise.image[..k] == st.pixels
      && noise.writes == written + RowMajor(k)
    }

    /** Regenerates the whole image from the stream: every pixel written once,
        y outer and x inner, with the colours of `Generate`. */
    method UpdateNoiseTexture()
      requires Valid()
      modifies noise, noise.pixels, random
      ensures Valid()
      ensures noise.image == Generate(random.draws, old(random.cursor)).pixels
      ensures random.cursor == Generate(random.draws, old(random.cursor)).cursor
      ensures noise.writes == old(noise.writes) + RowMajor(PixelCount)
    {
      ghost var start, written := random.cursor, noise.writes;
      var color := RandomColor();
      ghost var k := 0;
      var y := 0;
      while y < noise.height
        invariant 0 <= y <= Height && k == y * Width && Valid()
        invariant Scanned(k, color, start, written)
      {
        var x := 0;
        while x < noise.width
          invariant 0 <= x <= Width && k == y * Width + x && Valid()
          invariant Scanned(k, color, start, written)
        {
          color := ScanPixel(x, y, color, k, start, written);
          x, k := x + 1, k + 1;
        }
        y := y + 1;
      }
    }

    /** The body of the pixel loop: one decision sample, a new colour when it
        exceeds 0.89, then the current colour written at (x, y). */
    method ScanPixel(x: int, y: int, color0: Color, ghost k: nat, ghost start: nat, ghost written: seq<(int, int)>)
      returns (color: Color)
      requires Valid() && 0 <= x < Width && 0 <= y < Height && k == y * Width + x
      requires Scanned(k, color0, start, written)
      modifies noise, noise.pixels, random
      ensures Valid()
      ensures Scanned(k + 1, color, start, written)
    {
      ghost var next := Step(random.draws, Scan(random.draws, start, k));
      color := color0;
      var r := random.NextDouble();
      if r > RedrawThreshold {
        color := RandomColor();
      }
      assert color == next.color && random.cursor == next.cursor;
      ImagePrefixStep(noise.image, k, color);
      RowMajorNext(noise.writes, written, k, x, y);
      noise.SetPixel(x, y, color);
    }

    /** Configure: inactive, it draws nothing and leaves the image alone;
        active, it draws one sample and regenerates the image iff the sample
        exceeds Lerp(0.9, 0.5, intensity). */
    method Configure(volume: Option<DigitalGlitchVolume>)
      requires Valid()
      modifies noise, noise.pixels, random
      ensures Valid()
      ensures !IsActive(volume) ==>
        random.cursor == old(random.cursor) && unchanged(noise) && unchanged(noise.pixels)
      ensures IsActive(volume) && !Regenerates(volume.value.intensity.value, random.draws(old(random.cursor))) ==>
        random.cursor == old(random.cursor) + 1 && unchanged(noise) && unchanged(noise.pixels)
      ensures IsActive(volume) && Regenerates(volume.value.intensity.value, random.draws(old(random.cursor))) ==>
        && noise.image == Generate(random.draws, old(random.cursor) + 1).pixels
        && random.cursor == Generate(random.draws, old(random.cursor) + 1).cursor
        && noise.writes == old(noise.writes) + RowMajor(PixelCount)
    {
      if !IsActive(volume) {
        return;
      }
      var r := random.NextDouble();
      if r > Lerp(0.9, 0.5, volume.value.intensity.value) {
        UpdateNoiseTexture();
      }
    }

    /** Execute: gated off, it records nothing and draws nothing; otherwise it
        draws exactly one sample (the coin flip) and submits FrameCommands. */
    method Execute(ctx: RenderContext, camera: CameraData, volume: Option<DigitalGlitchVolume>, clock: Clock)
      requires Valid()
      modifies ctx, random
      ensures !Runs(volume, camera) ==>
        ctx.submitted == old(ctx.submitted) && random.cursor == old(random.cursor)
      ensures Runs(volume, camera) ==>
        && random.cursor == old(random.cursor) + 1
        && ctx.submitted == old(ctx.submitted)
             + FrameCommands(clock.frameCount, random.draws(old(random.cursor)), volume.value.intensity.value)
    {
      if !IsActive(volume) || !camera.postProcessEnabled || camera.isSceneViewCamera {
        return;
      }
      var source := CameraColor;
      var cmd: seq<Command> := [];
      cmd := cmd + [GetTemporaryRT(MainFrame, 0)];
      cmd := cmd + [GetTemporaryRT(TrashFrame1, 0)];
      cmd := cmd + [GetTemporaryRT(TrashFrame2, 0)];
      assert cmd == Acquires();
      cmd := cmd + [Blit(source, Temporary(MainFrame), false)];

      var frameCount := clock.frameCount;
      ghost var copies := [Blit(source, Temporary(MainFrame), false)];
      if frameCount % 13 == 0 {
        cmd := cmd + [Blit(source, Temporary(TrashFrame1), false)];
        copies := copies + [Blit(source, Temporary(TrashFrame1), false)];
      }
      if frameCount % 73 == 0 {
        cmd := cmd + [Blit(source, Temporary(TrashFrame2), false)];
        copies := copies + [Blit(source, Temporary(TrashFrame2), false)];
      }
      assert copies == Copies(frameCount);
      assert cmd == Acquires() + copies;

      var r := random.NextDouble();
      var blitTrash := if r > 0.5 then TrashFrame1 else TrashFrame2;
      ghost var head := cmd;
      cmd := cmd + [SetGlobalFloat(Intensity, volume.value.intensity.value)];
      cmd := cmd + [SetGlobalTexture(NoiseTex, NoiseTexture)];
      cmd := cmd + [SetGlobalTexture(MainTex, Temporary(MainFrame))];
      cmd := cmd + [SetGlobalTexture(TrashTex, Temporary(blitTrash))];

      cmd := cmd + [Blit(Temporary(MainFrame), source, true)];
      assert cmd == head + Composite(r, volume.value.intensity.value);

      cmd := cmd + [ReleaseTemporaryRT(MainFrame)];
      cmd := cmd + [ReleaseTemporaryRT(TrashFrame1)];
      cmd := cmd + [ReleaseTemporaryRT(TrashFrame2)];
      assert cmd == head + Composite(r, volume.value.intensity.value) + Releases();

      ctx.ExecuteCommandBuffer(cmd);
    }
  }
}
