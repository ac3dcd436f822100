/**
  The engine collaborators the glitch passes talk to, reduced to what the passes
  observe of them: a stream of uniform samples (System.Random), the commands a
  pass records into its command buffer, materials with named shader properties,
  the render context that receives the recorded buffer, and the two Mathf
  helpers the passes use (Clamp01 and Lerp).
 */
module Engine {

  /** A reference that may be null, for values: a volume component the
      settings stack may or may not hold. */
  datatype Option<T> = None | Some(value: T)

  /** A uniform sample in [0,1), as System.Random.NextDouble returns. */
  type Sample = r: real | 0.0 <= r < 1.0

  /** An injected random stream: a fixed infinite sequence of samples and a
      cursor saying how many of them have been consumed. */
  class RandomStream {
    const draws: nat -> Sample
    var cursor: nat

    constructor (draws: nat -> Sample)
      ensures this.draws == draws && cursor == 0
    {
      this.draws := draws;
      cursor := 0;
    }

    /** NextDouble: hands out the sample under the cursor and advances it by one. */
    method NextDouble() returns (r: Sample)
      modifies this
      ensures r == draws(old(cursor))
      ensures cursor == old(cursor) + 1
    {
      r := draws(cursor);
      cursor := cursor + 1;
    }
  }

  datatype Vec2 = Vec2(x: real, y: real)

  /** Names under which temporary render textures are requested. */
  datatype BufferName = MainFrame | TrashFrame1 | TrashFrame2

  /** Everything a blit or a texture binding can refer to. */
  datatype Target =
    | CameraColor               // the camera's colour target (the pass's source)
    | Temporary(name: BufferName)
    | NoiseTexture              // the digital pass's 64x32 noise image
    | MainTexture               // the analog RendererFeature pass's own RenderTexture
    | ActiveTexture             // camera.activeTexture

  datatype ShaderProperty =
    | MainTex | NoiseTex | TrashTex | Intensity
    | ScanLineJitter | VerticalJump | HorizontalShake | ColorDrift

  datatype Uniform = FloatValue(f: real) | VectorValue(v: Vec2) | TextureValue(t: Target)

  /** The CommandBuffer calls the passes record, in recording order. */
  datatype Command =
    | GetTemporaryRT(buffer: BufferName, depthBufferBits: int)
    | Blit(src: Target, dst: Target, withMaterial: bool)
    | SetGlobalFloat(prop: ShaderProperty, value: real)
    | SetGlobalTexture(prop: ShaderProperty, texture: Target)
    | ReleaseTemporaryRT(buffer: BufferName)

  /** The view-dependent facts of RenderingData.cameraData that gate a pass. */
  datatype CameraData = CameraData(postProcessEnabled: bool, isSceneViewCamera: bool)

  /** Time.time, Time.deltaTime and Time.frameCount at the call (the engine's
      frame count never goes below 0). */
  datatype Clock = Clock(time: real, deltaTime: real, frameCount: nat)

  /** A material: only its property block is modelled. */
  class Material {
    var props: map<ShaderProperty, Uniform>

    /** CoreUtils.CreateEngineMaterial: a fresh material with no properties set. */
    constructor Create()
      ensures props == map[]
    {
      props := map[];
    }

    /** Object.Instantiate: a fresh copy of the template's properties. */
    constructor Clone(template: Material)
      ensures props == template.props
    {
      props := template.props;
    }

    method SetFloat(p: ShaderProperty, f: real)
      modifies this
      ensures props == old(props)[p := FloatValue(f)]
    {
      props := props[p := FloatValue(f)];
    }

    method SetVector(p: ShaderProperty, v: Vec2)
      modifies this
      ensures props == old(props)[p := VectorValue(v)]
    {
      props := props[p := VectorValue(v)];
    }

    method SetTexture(p: ShaderProperty, t: Target)
      modifies this
      ensures props == old(props)[p := TextureValue(t)]
    {
      props := props[p := TextureValue(t)];
    }
  }

  /** ScriptableRenderContext: the command buffers submitted to it, flattened. */
  class RenderContext {
    var submitted: seq<Command>

    constructor ()
      ensures submitted == []
    {
      submitted := [];
    }

    /** ExecuteCommandBuffer: appends one recorded buffer to what the frame runs. */
    method ExecuteCommandBuffer(cmd: seq<Command>)
      modifies this
      ensures submitted == old(submitted) + cmd
    {
      submitted := submitted + cmd;
    }
  }

  /** Mathf.Clamp01. */
  function Clamp01(v: real): (r: real)
    ensures 0.0 <= r <= 1.0
    ensures 0.0 <= v <= 1.0 ==> r == v
    ensures v < 0.0 ==> r == 0.0
    ensures v > 1.0 ==> r == 1.0
  {
    if v < 0.0 then 0.0 else if v > 1.0 then 1.0 else v
  }

  /** Mathf.Clamp. */
  function Clamp(v: real, lo: real, hi: real): (r: real)
    requires lo <= hi
    ensures lo <= r <= hi
    ensures lo <= v <= hi ==> r == v
    ensures v < lo ==> r == lo
    ensures v > hi ==> r == hi
  {
    if v < lo then lo else if v > hi then hi else v
  }

  /** Mathf.Lerp, which clamps its parameter t to [0,1] before interpolating. */
  function Lerp(a: real, b: real, t: real): real
  {
    a + (b - a) * Clamp01(t)
  }

  /** A ClampedFloatParameter: a value with its declared range; setting the
      value clamps it into the range. */
  datatype ClampedFloatParameter = ClampedFloatParameter(value: real, min: real, max: real)
  {
    predicate InRange() { min <= value <= max }

    function WithValue(v: real): (p: ClampedFloatParameter)
      requires min <= max
      ensures p.min == min && p.max == max && p.InRange()
      ensures min <= v <= max ==> p.value == v
      ensures v < min ==> p.value == min
      ensures v > max ==> p.value == max
    {
      this.(value := Clamp(v, min, max))
    }
  }

  /** `new ClampedFloatParameter(0f, 0f, 1f)`: the declaration every glitch volume uses. */
  function UnitParameter(): ClampedFloatParameter
  {
    ClampedFloatParameter(0.0, 0.0, 1.0)
  }
}
