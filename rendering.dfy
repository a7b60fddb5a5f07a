/** The slice of the Unity / HDRP engine that the hologram pass talks to, reduced
    to what the pass itself decides: which render targets it allocates and
    releases, and which commands it records. GPU execution, rasterisation and the
    depth test's effect on pixels are not modelled; a recorded command is an
    inert value. */
module Rendering {

  /** A layer selection mask (the 32 bits of `LayerMask.value`, also the bits of
      the unsigned `cullingMask` they are cast to). */
  type LayerMask = bv32

  datatype Vector2 = Vector2(x: real, y: real)
  datatype Vector3 = Vector3(x: real, y: real, z: real)
  datatype Quaternion = Quaternion(x: real, y: real, z: real, w: real)

  const Vector2One := Vector2(1.0, 1.0)
  const Vector3Zero := Vector3(0.0, 0.0, 0.0)
  const Vector3One := Vector3(1.0, 1.0, 1.0)
  const QuaternionIdentity := Quaternion(0.0, 0.0, 0.0, 1.0)

  /** A matrix, kept as the symbolic `Matrix4x4.TRS` call that builds it. */
  datatype Matrix4x4 = TRS(translation: Vector3, rotation: Quaternion, scale: Vector3)

  /** A reference to a material asset; `NullMaterial` is C#'s null. An asset
      lists the names of its texture properties that have a texture assigned;
      `GetTexture` of any other name returns null. */
  datatype Material = NullMaterial | MaterialAsset(id: nat, assignedTextures: set<string>)

  /** `material.GetTexture(name)` returns a texture (neither the material nor
      the result is null). */
  predicate HasTexture(material: Material, name: string) {
    material.MaterialAsset? && name in material.assignedTextures
  }

  /** How a callback ended: normally, or by an unguarded dereference of null. */
  datatype Completion = Normal | NullReferenceThrown

  datatype GraphicsFormat = B10G11R11_UFloatPack32 | R32_SFloat | OtherFormat(code: nat)

  datatype DepthBits = None | Depth8 | Depth16 | Depth24 | Depth32

  datatype TextureDimension = Tex2D | Tex2DArray

  /** What `TextureXR.slices` and `TextureXR.dimension` report for the active
      stereo / single-pass configuration. */
  datatype TextureXR = TextureXR(slices: nat, dimension: TextureDimension)

  /** The arguments of one `RTHandles.Alloc` call. */
  datatype RTDescriptor = RTDescriptor(
    scaleFactor: Vector2,
    slices: nat,
    dimension: TextureDimension,
    colorFormat: GraphicsFormat,
    depthBufferBits: DepthBits,
    useDynamicScale: bool,
    name: string)

  /** A render-target handle: allocated with a descriptor, later released. */
  class RTHandle {
    const descriptor: RTDescriptor
    var released: bool

    constructor Alloc(descriptor: RTDescriptor)
      ensures this.descriptor == descriptor && !released
    {
      this.descriptor := descriptor;
      released := false;
    }

    method Release()
      modifies this`released
      ensures released
    {
      released := true;
    }
  }

  /** `ClearFlag` is a flags enumeration: bit 0 colour, bit 1 depth, bit 2 stencil. */
  type ClearFlag = bv8

  const ClearNone: ClearFlag := 0
  const ClearColor: ClearFlag := 1
  const ClearDepth: ClearFlag := 2
  const ClearStencil: ClearFlag := 4
  const ClearAll: ClearFlag := 7

  predicate ClearsColor(flag: ClearFlag) { flag & ClearColor != 0 }
  predicate ClearsDepth(flag: ClearFlag) { flag & ClearDepth != 0 }

  datatype CompareFunction =
    Disabled | Never | Less | Equal | LessEqual | Greater | NotEqual | GreaterEqual | Always

  /** The depth part of a `RenderStateBlock` whose mask is `RenderStateMask.Depth`. */
  datatype DepthState = DepthState(writeEnabled: bool, compareFunction: CompareFunction)

  /** A value bound in a `MaterialPropertyBlock`. The scroll offset vector is
      computed in single-precision floating point and is kept opaque. */
  datatype PropertyValue =
    | TextureValue(texture: RTHandle?)
    | MatrixValue(matrix: Matrix4x4)
    | ScrollOffsetValue

  /** One recorded GPU command. */
  datatype Command =
    | SetRenderTarget(colorBuffer: RTHandle?, depthBuffer: RTHandle?, clearFlag: ClearFlag)
    | DrawRenderers(layerMask: LayerMask, depthState: DepthState, overrideMaterial: Material)
    | DrawFullScreen(material: Material, properties: map<string, PropertyValue>, shaderPassId: int)

  /** The command buffer of a frame: the commands recorded so far, in order.
      Its methods stand for `CoreUtils.SetRenderTarget`,
      `CustomPassUtils.DrawRenderers` and `CoreUtils.DrawFullScreen`. */
  class CommandBuffer {
    var commands: seq<Command>

    constructor ()
      ensures commands == []
    {
      commands := [];
    }

    method SetRenderTarget(colorBuffer: RTHandle?, depthBuffer: RTHandle?, clearFlag: ClearFlag)
      modifies this
      ensures commands == old(commands) + [Command.SetRenderTarget(colorBuffer, depthBuffer, clearFlag)]
    {
      commands := commands + [Command.SetRenderTarget(colorBuffer, depthBuffer, clearFlag)];
    }

    method DrawRenderers(layerMask: LayerMask, depthState: DepthState, overrideMaterial: Material)
      modifies this
      ensures commands == old(commands) + [Command.DrawRenderers(layerMask, depthState, overrideMaterial)]
    {
      commands := commands + [Command.DrawRenderers(layerMask, depthState, overrideMaterial)];
    }

    method DrawFullScreen(material: Material, properties: map<string, PropertyValue>, shaderPassId: int)
      modifies this
      ensures commands == old(commands) + [Command.DrawFullScreen(material, properties, shaderPassId)]
    {
      commands := commands + [Command.DrawFullScreen(material, properties, shaderPassId)];
    }
  }

  /** What `Execute` receives each frame: the command buffer to record into and
      the camera's own colour and depth targets. */
  datatype CustomPassContext = CustomPassContext(
    cmd: CommandBuffer,
    cameraColorBuffer: RTHandle,
    cameraDepthBuffer: RTHandle)

  /** The culling parameters handed to `AggregateCullingParameters` by reference;
      `S` stands for every field other than the culling mask. */
  datatype ScriptableCullingParameters<S> = ScriptableCullingParameters(cullingMask: bv32, otherSettings: S)
}
