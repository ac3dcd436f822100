# URPGlitch render passes in Dafny

This project models the per-frame logic of the two glitch post-processing
passes in URPGlitch, a Universal Render Pipeline port of KinoGlitch. Each pass
exists in two revisions: a "Runtime" one driven by volume components, and an
older "RendererFeature" one.

- **Digital glitch.** The pass owns a 64x32 noise texture and regenerates it
  with a banded row-major scan over a random stream (`Noise`,
  `RuntimeDigitalPass.DigitalGlitchRenderPass.UpdateNoiseTexture`). `Configure`
  decides whether to regenerate by comparing one sample with
  `Lerp(0.9, 0.5, intensity)`. Each executed frame records one command buffer,
  which:
  - acquires `_MainFrame`, `_TrashFrame1` and `_TrashFrame2` with depth 0;
  - always copies the source into `_MainFrame`;
  - refreshes the trash frames on the 13/73 frame-count cadence;
  - picks a trash frame by a coin flip;
  - binds the shader inputs and blits through the glitch material;
  - releases all three buffers.
- **Analog glitch.** The pass keeps one accumulator, `_verticalJumpTime`. From
  four parameters it derives the scan-line vector, the vertical-jump vector,
  the horizontal shake and the colour-drift vector, and writes them into its
  material. It then blits the source through that material.
  - The Runtime revision is gated on an active volume, post-processing being
    enabled and a non-scene-view camera, and uses one temporary buffer.
  - The RendererFeature revision is gated only on its lazily instantiated
    material. It copies through a RenderTexture of its own.
- **Volumes.** The `IsActive` predicates of the three volume components.

How the engine is represented:
- `System.Random` is an injected infinite stream of samples in [0,1) with a
  cursor (`Engine.RandomStream`).
- Each pass's recorded `CommandBuffer` is a sequence of `Command` values. The
  render context collects them in `RenderContext.submitted`.
- `Material.Set*` calls update `Material.props` immediately.
- `Texture2D` is a `NoiseTexture` class over an `array2` of colours. It carries
  a ghost row-major image and a ghost log of `SetPixel` calls.
- `Time.time`, `Time.deltaTime` and `Time.frameCount` arrive together as a
  `Clock` input.
- The camera flags arrive as `CameraData`.
- The volume on the stack arrives per call as an `Option`.
- `BufferPool.Replay` checks a recorded frame against the temporary-buffer
  discipline: no double acquire, no use or release of a name that is not held.

Each method is proved against specification functions: `Scan`/`Generate` for
the noise, `FrameCommands` for each recorded frame, `AnalogProps` for the
material writes, and `JumpTime` for the accumulator over a run of frames. The
properties are then proved about those functions.

Facts about the code that shape the model:
- The digital cadence reads the engine's `Time.frameCount`. The pass keeps no
  frame counter of its own.
- Noise regeneration is decided in `Configure`, before `Execute` runs.
- The RendererFeature analog pass returns before the increment when it has no
  material, so that frame does not advance its accumulator
  (`AnalogGlitchFeature.cs:41-42`).
- The RendererFeature digital pass sets `_Intensity` and `_NoiseTex` on its
  material. The Runtime pass binds them globally in the command buffer
  (`RevisionsDifferOnlyInBindings`).

## Model

| member | source | states |
|---|---|---|
| Engine.RandomStream.NextDouble | Assets/URPGlitch/Runtime/DigitalGlitch/DigitalGlitchRenderPass.cs:139 | returns the sample under the cursor and consumes exactly that one sample |
| Engine.Material.Clone | Assets/URPGlitch/RendererFeature/AnalogGlitchFeature.cs:91 | an instantiated material starts with exactly the template's properties |
| Engine.RenderContext.ExecuteCommandBuffer | Assets/URPGlitch/Runtime/DigitalGlitch/DigitalGlitchRenderPass.cs:127 | the recorded buffer is appended, in order, after everything already submitted |
| Engine.Clamp01 | Assets/URPGlitch/Runtime/AnalogGlitch/AnalogGlitchRenderPass.cs:84 | the result is the input when that lies in [0,1], 0 below the range and 1 above it, so it always lies in [0,1] |
| Engine.ClampedFloatParameter.WithValue | Assets/URPGlitch/Runtime/AnalogGlitch/AnalogGlitchVolume.cs:10-13 | setting a clamped parameter keeps its range and stores the value clamped into it: the value itself inside the range, the nearer bound outside |
| Noise.ScanPrefix | Assets/URPGlitch/Runtime/DigitalGlitch/DigitalGlitchRenderPass.cs:135-147 | pixels already written, and their decisions, never change as the scan goes on |
| Noise.BandStructure | Assets/URPGlitch/Runtime/DigitalGlitch/DigitalGlitchRenderPass.cs:133-145 | pixel i's decision is the sample under the cursor when pixel i is reached. Above 0.89 the pixel takes the colour of the next four samples. Otherwise it repeats the previous pixel's colour, or the starting colour for pixel 0 |
| Noise.ScanSampleCount | Assets/URPGlitch/Runtime/DigitalGlitch/DigitalGlitchRenderPass.cs:133-145 | after k pixels the stream has advanced by exactly 4 + k + 4 * (decisions above 0.89) |
| Noise.StepSampleCount | Assets/URPGlitch/Runtime/DigitalGlitch/DigitalGlitchRenderPass.cs:139-143 | one pixel consumes one decision sample and, exactly when it redraws, four more |
| Noise.GenerateSampleCount | Assets/URPGlitch/Runtime/DigitalGlitch/DigitalGlitchRenderPass.cs:131-161 | a full regeneration consumes exactly 4 + 2048 + 4 * (decisions above 0.89) samples |
| Noise.ScanDeterministic | Assets/URPGlitch/Runtime/DigitalGlitch/DigitalGlitchRenderPass.cs:131-150 | two streams that agree on the samples a regeneration consumes give the same image, decisions and cursor |
| Noise.RowMajorCount | Assets/URPGlitch/Runtime/DigitalGlitch/DigitalGlitchRenderPass.cs:135-137 | the first k visits of the y-outer/x-inner scan contain pixel (x, y) once if y * 64 + x < k and otherwise not at all |
| Noise.RowMajorVisitsEachPixelOnce | Assets/URPGlitch/Runtime/DigitalGlitch/DigitalGlitchRenderPass.cs:135-145 | the 2048 visits go in row-major order, stay within 64x32, and visit every pixel exactly once |
| Noise.NoiseTexture.constructor | Assets/URPGlitch/Runtime/DigitalGlitch/DigitalGlitchRenderPass.cs:45-50 | a fresh 64x32 texture whose grid agrees with its row-major image, with no pixel written yet |
| Noise.NoiseTexture.SetPixel | Assets/URPGlitch/Runtime/DigitalGlitch/DigitalGlitchRenderPass.cs:145 | only pixel (x, y), row-major index y * 64 + x, changes, and the write is logged |
| DigitalPolicy.RegenThresholdBounds | Assets/URPGlitch/Runtime/DigitalGlitch/DigitalGlitchRenderPass.cs:76 | the regeneration threshold is 0.9 - 0.4 * intensity on [0,1], and lies in [0.5, 0.9] for any intensity because Lerp clamps |
| DigitalPolicy.RegenerationMonotone | Assets/URPGlitch/Runtime/DigitalGlitch/DigitalGlitchRenderPass.cs:76 | a sample that regenerates at some intensity also regenerates at any higher intensity |
| DigitalPolicy.MultiplesCount | Assets/URPGlitch/Runtime/DigitalGlitch/DigitalGlitchRenderPass.cs:110-111 | among frame counts 0 .. n-1, ceil(n / period) pass the `frameCount % period == 0` test |
| DigitalPolicy.CopiesMultiples | Assets/URPGlitch/Runtime/DigitalGlitch/DigitalGlitchRenderPass.cs:107-111 | the frames recorded at counts 0 .. n-1 copy into mainFrame n times, and into each trash frame once per count that is a multiple of its period |
| DigitalPolicy.RefreshCount | Assets/URPGlitch/Runtime/DigitalGlitch/DigitalGlitchRenderPass.cs:107-111 | over the frames recorded at counts 0 .. n-1, mainFrame receives n copies, trashFrame1 ceil(n / 13) and trashFrame2 ceil(n / 73) |
| DigitalPolicy.HundredFrameCadence | Assets/URPGlitch/Runtime/DigitalGlitch/DigitalGlitchRenderPass.cs:107-111 | the frames recorded at counts 0 .. 99 copy into trashFrame1 8 times and into trashFrame2 twice |
| DigitalPolicy.FramedBalanced | Assets/URPGlitch/Runtime/DigitalGlitch/DigitalGlitchRenderPass.cs:104-124 | any pool-free middle that uses only the three frames is balanced once framed by the three acquires and the three releases |
| DigitalPolicy.FramedPoolCounts | Assets/URPGlitch/Runtime/DigitalGlitch/DigitalGlitchRenderPass.cs:103-124 | once framed, each buffer is acquired exactly once with depth 0 and released exactly once |
| RuntimeAnalogVolume.DeclaredIsInactive | Assets/URPGlitch/Runtime/AnalogGlitch/AnalogGlitchVolume.cs:10-18 | all four parameters are declared with value 0 and range [0,1], and the declared volume is inactive |
| RuntimeAnalogVolume.SettingOneParameterActivates | Assets/URPGlitch/Runtime/AnalogGlitch/AnalogGlitchVolume.cs:15-18 | setting any one parameter to a positive value activates the volume, whatever the other three hold |
| RuntimeAnalogVolume.ActiveIffSomePositive | Assets/URPGlitch/Runtime/AnalogGlitch/AnalogGlitchVolume.cs:15-18 | the volume is inactive iff all four values are at most 0 |
| RuntimeAnalogVolume.ActiveInRange | Assets/URPGlitch/Runtime/AnalogGlitch/AnalogGlitchVolume.cs:10-18 | within the declared ranges the volume is active iff some parameter is non-zero |
| RuntimeDigitalVolume.DeclaredIsInactive | Assets/URPGlitch/Runtime/DigitalGlitch/DigitalGlitchVolume.cs:10-12 | intensity is declared with value 0 and range [0,1], and the declared volume is inactive |
| RuntimeDigitalVolume.ActiveInRange | Assets/URPGlitch/Runtime/DigitalGlitch/DigitalGlitchVolume.cs:10-12 | within the range the volume is active iff intensity is non-zero, and setting intensity activates it iff the value set is positive |
| FeatureDigitalVolume.DeclaredIsInactive | Assets/URPGlitch/RendererFeature/DigitalGlitch/DigitalGlitchVolume.cs:9-11 | intensity is declared with value 0 and range [0,1], and the declared volume is inactive |
| FeatureDigitalVolume.ActiveInRange | Assets/URPGlitch/RendererFeature/DigitalGlitch/DigitalGlitchVolume.cs:9-11 | within the range the volume is active iff intensity is non-zero, and setting intensity activates it iff the value set is positive |
| AnalogPolicy.AnalogProps | Assets/URPGlitch/Runtime/AnalogGlitch/AnalogGlitchRenderPass.cs:84-93 | a frame sets exactly the four glitch properties: the scan-line vector, (verticalJump, the jump time), 0.2 * shake and the drift vector. Every other property keeps its value |
| AnalogPolicy.SetGlitchProperties | Assets/URPGlitch/Runtime/AnalogGlitch/AnalogGlitchRenderPass.cs:84-93 | the four material writes leave the material's properties equal to `AnalogProps` of the old ones |
| AnalogPolicy.ThresholdBounds | Assets/URPGlitch/Runtime/AnalogGlitch/AnalogGlitchRenderPass.cs:84 | the threshold lies in [0,1]. It is 1 for s <= 0, 0 for s >= 5/6, and 1 - 1.2 s in between |
| AnalogPolicy.ThresholdAntitone | Assets/URPGlitch/Runtime/AnalogGlitch/AnalogGlitchRenderPass.cs:84 | more jitter never raises the threshold |
| AnalogPolicy.DisplacementMonotone | Assets/URPGlitch/Runtime/AnalogGlitch/AnalogGlitchRenderPass.cs:85 | more jitter never lowers the displacement |
| AnalogPolicy.DisplacementBounds | Assets/URPGlitch/Runtime/AnalogGlitch/AnalogGlitchRenderPass.cs:85 | for jitter in [0,1] the displacement lies in [0.002, 0.052], and both ends are reached |
| AnalogPolicy.HalfAndFullJitter | Assets/URPGlitch/Runtime/AnalogGlitch/AnalogGlitchRenderPass.cs:84-86 | the scan-line vector is (0.00825, 0.4) at jitter 0.5 and (0.052, 0) at jitter 1 |
| AnalogPolicy.JumpTimeMonotone | Assets/URPGlitch/Runtime/AnalogGlitch/AnalogGlitchRenderPass.cs:82 | with non-negative frame times and jump values the jump time never decreases: every prefix ends no later than the whole run, which ends no earlier than the start |
| AnalogPolicy.GatedNeverAhead | Assets/URPGlitch/Runtime/AnalogGlitch/AnalogGlitchRenderPass.cs:58-82 | a gated accumulator never runs ahead of one that renders every frame, and equals it when the gated-off frames would have added nothing |
| AnalogPolicy.NoneRenderedFreezes | Assets/URPGlitch/Runtime/AnalogGlitch/AnalogGlitchRenderPass.cs:58-82 | when no frame gets past the gate the jump time stays where it was |
| AnalogPolicy.SteadyRate | Assets/URPGlitch/RendererFeature/AnalogGlitchFeature.cs:54 | n rendered frames with step dt and jump value v advance the jump time by exactly n * dt * v * 11.3 |
| RuntimeDigitalPass.FrameBalanced | Assets/URPGlitch/Runtime/DigitalGlitch/DigitalGlitchRenderPass.cs:104-124 | replayed from an empty pool, the frame never acquires a held buffer and never uses or releases an unheld one, and it ends with nothing held |
| RuntimeDigitalPass.FrameAcquiresEachOnce | Assets/URPGlitch/Runtime/DigitalGlitch/DigitalGlitchRenderPass.cs:103-124 | each of the three buffers is acquired exactly once with depth 0 and released exactly once, and no acquire uses another depth |
| RuntimeDigitalPass.FrameCopyRules | Assets/URPGlitch/Runtime/DigitalGlitch/DigitalGlitchRenderPass.cs:107-111 | the source is always copied into mainFrame, into trashFrame1 iff frameCount % 13 == 0, into trashFrame2 iff frameCount % 73 == 0, and never elsewhere |
| RuntimeDigitalPass.FrameTrashSelection | Assets/URPGlitch/Runtime/DigitalGlitch/DigitalGlitchRenderPass.cs:113-118 | _TrashTex is bound exactly once, just before the blend: to trashFrame1 iff the coin sample exceeds 0.5, otherwise to trashFrame2 |
| RuntimeDigitalPass.FrameComposite | Assets/URPGlitch/Runtime/DigitalGlitch/DigitalGlitchRenderPass.cs:115-124 | the only material blit goes from mainFrame to the source, after every copy and every binding and before the three releases |
| RuntimeDigitalPass.DigitalGlitchRenderPass.constructor | Assets/URPGlitch/Runtime/DigitalGlitch/DigitalGlitchRenderPass.cs:38-59 | before any frame the texture holds a full regeneration from the start of the stream, with every pixel written once in row-major order |
| RuntimeDigitalPass.DigitalGlitchRenderPass.RandomColor | Assets/URPGlitch/Runtime/DigitalGlitch/DigitalGlitchRenderPass.cs:152-162 | the colour is the next four samples in r, g, b, a order, and exactly four samples are consumed |
| RuntimeDigitalPass.DigitalGlitchRenderPass.UpdateNoiseTexture | Assets/URPGlitch/Runtime/DigitalGlitch/DigitalGlitchRenderPass.cs:131-150 | the image and the cursor become those of `Generate` from the old cursor, and the pixels are written in row-major order, each once |
| RuntimeDigitalPass.DigitalGlitchRenderPass.ScanPixel | Assets/URPGlitch/Runtime/DigitalGlitch/DigitalGlitchRenderPass.cs:139-145 | one loop iteration advances the scan state from k pixels to k + 1 |
| RuntimeDigitalPass.DigitalGlitchRenderPass.Configure | Assets/URPGlitch/Runtime/DigitalGlitch/DigitalGlitchRenderPass.cs:71-80 | inactive, it draws nothing and leaves the texture alone. Active, it draws one sample and regenerates iff that sample exceeds Lerp(0.9, 0.5, intensity); otherwise the texture is unchanged |
| RuntimeDigitalPass.DigitalGlitchRenderPass.Execute | Assets/URPGlitch/Runtime/DigitalGlitch/DigitalGlitchRenderPass.cs:86-129 | gated off, it submits nothing and draws nothing. Otherwise it draws exactly one sample and submits `FrameCommands` for the frame count, that sample and the intensity |
| FeatureDigitalPass.FrameBalanced | Assets/URPGlitch/RendererFeature/DigitalGlitchFeature.cs:123-149 | replayed from an empty pool, the frame breaches nothing and ends with nothing held |
| FeatureDigitalPass.FrameAcquiresEachOnce | Assets/URPGlitch/RendererFeature/DigitalGlitchFeature.cs:123-149 | each buffer is acquired exactly once with depth 0 and released exactly once |
| FeatureDigitalPass.FrameCopyRules | Assets/URPGlitch/RendererFeature/DigitalGlitchFeature.cs:130-135 | mainFrame is always copied, trashFrame1 iff frameCount % 13 == 0, and trashFrame2 iff frameCount % 73 == 0 |
| FeatureDigitalPass.FrameComposite | Assets/URPGlitch/RendererFeature/DigitalGlitchFeature.cs:138-149 | _MainTex and then _TrashTex are bound just before the only material blit, and _TrashTex is bound nowhere else. The trash frame is trashFrame1 iff the sample exceeds 0.5. The releases come last |
| FeatureDigitalPass.RevisionsDifferOnlyInBindings | Assets/URPGlitch/RendererFeature/DigitalGlitchFeature.cs:140-143 | removing the two global bindings of _Intensity and _NoiseTex from the Runtime frame gives exactly this revision's frame |
| FeatureDigitalPass.DigitalGlitchRenderPass.constructor | Assets/URPGlitch/RendererFeature/DigitalGlitchFeature.cs:58-79 | before any frame the texture holds a full regeneration, with every pixel written once in row-major order |
| FeatureDigitalPass.DigitalGlitchRenderPass.RandomColor | Assets/URPGlitch/RendererFeature/DigitalGlitchFeature.cs:177-187 | the next four samples in r, g, b, a order, and exactly four consumed |
| FeatureDigitalPass.DigitalGlitchRenderPass.UpdateNoiseTexture | Assets/URPGlitch/RendererFeature/DigitalGlitchFeature.cs:156-175 | the image and the cursor become those of `Generate`, and all 2048 pixels are written once in row-major order |
| FeatureDigitalPass.DigitalGlitchRenderPass.ScanPixel | Assets/URPGlitch/RendererFeature/DigitalGlitchFeature.cs:164-170 | one loop iteration advances the scan state from k pixels to k + 1 |
| FeatureDigitalPass.DigitalGlitchRenderPass.Configure | Assets/URPGlitch/RendererFeature/DigitalGlitchFeature.cs:91-100 | inactive, it is a no-op. Active, it draws one sample and regenerates iff that sample exceeds Lerp(0.9, 0.5, intensity) |
| FeatureDigitalPass.DigitalGlitchRenderPass.Execute | Assets/URPGlitch/RendererFeature/DigitalGlitchFeature.cs:106-154 | gated off, nothing changes. Otherwise it draws one sample, writes _Intensity and _NoiseTex into the material, and submits `FrameCommands` |
| RuntimeAnalogPass.FrameBalanced | Assets/URPGlitch/Runtime/AnalogGlitch/AnalogGlitchRenderPass.cs:74-97 | replayed from an empty pool, the frame breaches nothing and ends with nothing held |
| RuntimeAnalogPass.FramePoolCounts | Assets/URPGlitch/Runtime/AnalogGlitch/AnalogGlitchRenderPass.cs:73-97 | mainFrame is the only buffer touched. It is acquired exactly once with depth 0 and released exactly once |
| RuntimeAnalogPass.FrameOrder | Assets/URPGlitch/Runtime/AnalogGlitch/AnalogGlitchRenderPass.cs:75-97 | the copy into mainFrame comes first, then the _MainTex binding, then the only material blit, back into the source; the release comes last |
| RuntimeAnalogPass.AnalogGlitchRenderPass.constructor | Assets/URPGlitch/Runtime/AnalogGlitch/AnalogGlitchRenderPass.cs:28-45 | the jump time starts at 0 with no frames seen |
| RuntimeAnalogPass.AnalogGlitchRenderPass.Execute | Assets/URPGlitch/Runtime/AnalogGlitch/AnalogGlitchRenderPass.cs:56-102 | gated off, the jump time, the material and the context are unchanged. Otherwise the jump time advances by dt * verticalJump * 11.3 and the material gets `AnalogProps` with the advanced time. `FrameCommands` is submitted. The jump time always equals `JumpTime` over the frames seen |
| RuntimeAnalogPass.JumpTimeForward | Assets/URPGlitch/Runtime/AnalogGlitch/AnalogGlitchRenderPass.cs:58-82 | over forward frames the Runtime jump time stays between 0 and the time an ungated pass would reach |
| RuntimeAnalogPass.FrameOfForward | Assets/URPGlitch/Runtime/AnalogGlitch/AnalogGlitchRenderPass.cs:78-82 | an in-range volume and a non-negative frame time make a forward frame |
| FeatureAnalogPass.FrameShape | Assets/URPGlitch/RendererFeature/AnalogGlitchFeature.cs:49-68 | the active texture is copied into the pass's texture before the material blit writes back. No temporary buffer is touched |
| FeatureAnalogPass.AnalogGlitchFeature.constructor | Assets/URPGlitch/RendererFeature/AnalogGlitchFeature.cs:76-83 | the four parameters start at 0 and no instance exists |
| FeatureAnalogPass.AnalogGlitchFeature.MaterialInstance | Assets/URPGlitch/RendererFeature/AnalogGlitchFeature.cs:85-96 | an existing instance is returned unchanged. Otherwise a fresh copy of the template is created and kept, or, with no template, there is none |
| FeatureAnalogPass.DefaultsAndUnclamped | Assets/URPGlitch/RendererFeature/AnalogGlitchFeature.cs:80-83 | at the defaults the jump increment is 0 and the scan-line vector is (0.002, 1). Nothing clamps the plain parameters: a jitter above 1 gives threshold 0 and a displacement above 0.052 |
| FeatureAnalogPass.CustomRenderPass.constructor | Assets/URPGlitch/RendererFeature/AnalogGlitchFeature.cs:23-37 | the jump time starts at 0 with no frames seen |
| FeatureAnalogPass.CustomRenderPass.Execute | Assets/URPGlitch/RendererFeature/AnalogGlitchFeature.cs:39-73 | with no material, nothing changes. Otherwise it uses the feature's one instance and advances the jump time with no activity or camera gate. The material gets _MainTex and the four properties, and `FrameCommands` is submitted |

## Left out

- Unity plumbing is not modelled:
  - `CommandBufferPool`, `ProfilingScope` and `cmd.Clear`;
  - `Texture2D.Apply` (the GPU upload);
  - `Dispose` and `CoreUtils.Destroy`;
  - the feature classes' `Create` and `AddRenderPasses`;
  - the sample scripts;
  - the wrapper features under `Runtime/` and `Packages/`.

  None of these has logic of its own.
- The per-pixel shader blend is external. A blit is a `Command` naming its source, its destination and whether it goes through the material.
- Floating point is not modelled. All values are reals, including the `(float)` casts of `NextDouble` (which can round a sample up to 1.0f), `Mathf.Pow(s, 3)` (modelled as s * s * s) and single-precision accumulation of `_verticalJumpTime`.
- Randomness is an injected stream of samples in [0,1), not `System.Random`'s generator or seeding.
- The volume is passed to each call, not fetched once from `VolumeManager.instance.stack` in the constructor. The pass still reads the same component's current values every frame.
- Render-target descriptors, resolutions, buffer contents and `renderPassEvent` are not modelled. Buffers are known by name only.
- `Time.frameCount` is a `nat`. The engine's counter never goes negative.
- FeatureAnalogPass.AnalogGlitchFeature.MaterialInstance: `Object.Instantiate(null)` throws in Unity. With no template the model returns null instead, and Execute then changes nothing. The exception propagating to the renderer is not modelled.
- The RendererFeature analog pass's own `RenderTexture` and its `hideFlags` are a single `MainTexture` target.
