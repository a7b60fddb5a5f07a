/** The HDRP custom pass itself: its configuration, the three off-screen targets
    it allocates in `Setup` and releases in `Cleanup`, the culling mask it
    writes before culling, and the commands `Execute` records each frame. */
module OpaqueHolograms {
  import opened Rendering
  import opened LayerMappings
  import opened PassCommands

  /** The descriptors of the three `RTHandles.Alloc` calls in `Setup`. */
  function ObjectBufferDescriptor(colorBufferFormat: GraphicsFormat, xr: TextureXR): RTDescriptor {
    RTDescriptor(Vector2One, xr.slices, xr.dimension, colorBufferFormat, DepthBits.None, true,
                 "Hologram Object Buffer")
  }

  function ObjectDepthDescriptor(depthBits: DepthBits, xr: TextureXR): RTDescriptor {
    RTDescriptor(Vector2One, xr.slices, xr.dimension, R32_SFloat, depthBits, true,
                 "Hologram Object Buffer Depth")
  }

  function TintBufferDescriptor(colorBufferFormat: GraphicsFormat, xr: TextureXR): RTDescriptor {
    RTDescriptor(Vector2One, xr.slices, xr.dimension, colorBufferFormat, DepthBits.None, true,
                 "Hologram Object Tint Buffer")
  }

  /** The three targets track the viewport together: same scale, same slice
      count and dimension, all dynamic-scale; object and tint buffers use the
      configured colour format without depth, the depth target is a readable
      single-channel float with the configured depth bits. */
  lemma TargetDescriptorsAgree(colorBufferFormat: GraphicsFormat, depthBits: DepthBits, xr: TextureXR)
    ensures var o, d, t := ObjectBufferDescriptor(colorBufferFormat, xr),
                           ObjectDepthDescriptor(depthBits, xr),
                           TintBufferDescriptor(colorBufferFormat, xr);
      && o.scaleFactor == d.scaleFactor == t.scaleFactor == Vector2(1.0, 1.0)
      && o.slices == d.slices == t.slices == xr.slices
      && o.dimension == d.dimension == t.dimension == xr.dimension
      && o.useDynamicScale && d.useDynamicScale && t.useDynamicScale
      && o.colorFormat == t.colorFormat == colorBufferFormat
      && d.colorFormat == R32_SFloat && d.depthBufferBits == depthBits
      && o.depthBufferBits == t.depthBufferBits == DepthBits.None
      && o.name != d.name && d.name != t.name && o.name != t.name
  {
  }

  /** One capture phase of `Execute`: bind `colorBuffer` with the pass's depth
      target, clearing as `clearFlag` says, then draw every mapping's layers in
      list order, with depth write and `LessEqual`, overridden by the tint
      material in the tint phase and not at all in the object phase. */
  method RecordCapturePhase(cmd: CommandBuffer, mappings: seq<LayerTintMapping>,
                            colorBuffer: RTHandle?, depthBuffer: RTHandle?, clearFlag: ClearFlag, withTint: bool)
    modifies cmd
    ensures cmd.commands == old(cmd.commands) + [SetRenderTarget(colorBuffer, depthBuffer, clearFlag)]
                                              + CaptureDraws(mappings, withTint)
  {
    cmd.SetRenderTarget(colorBuffer, depthBuffer, clearFlag);
    ghost var start := cmd.commands;
    for i := 0 to |mappings|
      invariant cmd.commands == start + CaptureDraws(mappings[..i], withTint)
    {
      assert mappings[..i + 1][..i] == mappings[..i];
      var layer := mappings[i];
      var overrideMaterial := if withTint then layer.tintMaterial else NullMaterial;
      cmd.DrawRenderers(layer.hologramObjectLayers, DepthState(true, LessEqual), overrideMaterial);
    }
    assert mappings[..|mappings|] == mappings;
  }

  class OpaqueHologramPass {
    var layerTintMappings: seq<LayerTintMapping>
    var colorBufferFormat: GraphicsFormat
    var depthBits: DepthBits
    var hologramMaterial: Material
    var effectRotation: Quaternion
    var effectScale: Vector3

    var holoObjectBuffer: RTHandle?
    var holoObjectBufferDepth: RTHandle?
    var holoObjectTintBuffer: RTHandle?

    /** The three handles exist, are distinct and none is released yet. */
    predicate TargetsAllocated()
      reads this, holoObjectBuffer, holoObjectBufferDepth, holoObjectTintBuffer
    {
      && holoObjectBuffer != null && holoObjectBufferDepth != null && holoObjectTintBuffer != null
      && holoObjectBuffer != holoObjectBufferDepth
      && holoObjectBufferDepth != holoObjectTintBuffer
      && holoObjectBuffer != holoObjectTintBuffer
      && !holoObjectBuffer.released && !holoObjectBufferDepth.released && !holoObjectTintBuffer.released
    }

    /** The three handles exist and all have been released. */
    predicate TargetsReleased()
      reads this, holoObjectBuffer, holoObjectBufferDepth, holoObjectTintBuffer
    {
      && holoObjectBuffer != null && holoObjectBufferDepth != null && holoObjectTintBuffer != null
      && holoObjectBuffer.released && holoObjectBufferDepth.released && holoObjectTintBuffer.released
    }

    function Targets(): TargetSet
      reads this
    {
      TargetSet(holoObjectBuffer, holoObjectBufferDepth, holoObjectTintBuffer)
    }

    /** The field initialisers: no mappings, an 11-11-10 float colour format,
        24 depth bits, identity orientation, unit scale, no targets yet. */
    constructor ()
      ensures layerTintMappings == []
      ensures colorBufferFormat == B10G11R11_UFloatPack32 && depthBits == Depth24
      ensures hologramMaterial == NullMaterial
      ensures effectRotation == QuaternionIdentity && effectScale == Vector3One
      ensures holoObjectBuffer == null && holoObjectBufferDepth == null && holoObjectTintBuffer == null
    {
      layerTintMappings := [];
      colorBufferFormat := B10G11R11_UFloatPack32;
      depthBits := Depth24;
      hologramMaterial := NullMaterial;
      effectRotation := QuaternionIdentity;
      effectScale := Vector3One;
      holoObjectBuffer, holoObjectBufferDepth, holoObjectTintBuffer := null, null, null;
    }

    /** Allocates the three off-screen targets, each new, sized for the current
        XR slice configuration. Only the handle fields change. */
    method Setup(xr: TextureXR)
      modifies this`holoObjectBuffer, this`holoObjectBufferDepth, this`holoObjectTintBuffer
      ensures fresh(holoObjectBuffer) && fresh(holoObjectBufferDepth) && fresh(holoObjectTintBuffer)
      ensures TargetsAllocated()
      ensures holoObjectBuffer.descriptor == ObjectBufferDescriptor(colorBufferFormat, xr)
      ensures holoObjectBufferDepth.descriptor == ObjectDepthDescriptor(depthBits, xr)
      ensures holoObjectTintBuffer.descriptor == TintBufferDescriptor(colorBufferFormat, xr)
    {
      holoObjectBuffer := new RTHandle.Alloc(ObjectBufferDescriptor(colorBufferFormat, xr));
      holoObjectBufferDepth := new RTHandle.Alloc(ObjectDepthDescriptor(depthBits, xr));
      holoObjectTintBuffer := new RTHandle.Alloc(TintBufferDescriptor(colorBufferFormat, xr));
    }

    /** Writes the culling mask the host culls with: the OR of every mapping's
        layers, replacing whatever mask came in; nothing else is touched. */
    method AggregateCullingParameters<S>(cullingParameters: ScriptableCullingParameters<S>)
      returns (updated: ScriptableCullingParameters<S>)
      ensures updated.otherSettings == cullingParameters.otherSettings
      ensures updated.cullingMask == AggregateMask(layerTintMappings)
      ensures layerTintMappings == [] ==> updated.cullingMask == 0
    {
      var mask: LayerMask := 0;
      for i := 0 to |layerTintMappings|
        invariant mask == AggregateMask(layerTintMappings[..i])
      {
        assert layerTintMappings[..i + 1][..i] == layerTintMappings[..i];
        mask := mask | layerTintMappings[i].hologramObjectLayers;
      }
      assert layerTintMappings[..|layerTintMappings|] == layerTintMappings;
      updated := cullingParameters.(cullingMask := mask);
    }

    /** Records one frame's commands onto `ctx.cmd`: the tint pre-pass, the
        object pass and the composite. Between the object pass and the
        composite the source fetches the hologram material's `_LinesTexture` and
        writes its mip bias, unguarded: when the material is null or that
        texture is unassigned, the call throws there, after the capture
        commands and before the composite. The pass's own fields are not
        changed. */
    method Execute(ctx: CustomPassContext) returns (completion: Completion)
      modifies ctx.cmd
      ensures unchanged(this)
      ensures completion == if HasTexture(hologramMaterial, LinesTextureKey) then Normal else NullReferenceThrown
      ensures completion == Normal ==>
        ctx.cmd.commands == old(ctx.cmd.commands) +
          ExecuteCommands(layerTintMappings, Targets(), ctx.cameraColorBuffer, ctx.cameraDepthBuffer,
                          hologramMaterial, TRS(Vector3Zero, effectRotation, effectScale))
      ensures completion == NullReferenceThrown ==>
        ctx.cmd.commands == old(ctx.cmd.commands) + CaptureCommands(layerTintMappings, Targets())
    {
      var cmd := ctx.cmd;
      ghost var before := cmd.commands;
      // drawing to the tint buffer first also serves as the depth pre-pass
      RecordCapturePhase(cmd, layerTintMappings, holoObjectTintBuffer, holoObjectBufferDepth, ClearAll, true);
      RecordCapturePhase(cmd, layerTintMappings, holoObjectBuffer, holoObjectBufferDepth, ClearColor, false);
      ghost var afterCapture := cmd.commands;
      assert afterCapture == before + CaptureCommands(layerTintMappings, Targets());

      var orientation := TRS(Vector3Zero, effectRotation, effectScale);
      // `GetTexture` dereferences the material, and the mip-bias write the texture
      if !HasTexture(hologramMaterial, LinesTextureKey) {
        return NullReferenceThrown;
      }

      var properties: map<string, PropertyValue> := map[];
      properties := properties[ObjectBufferKey := TextureValue(holoObjectBuffer)];
      properties := properties[ObjectDepthKey := TextureValue(holoObjectBufferDepth)];
      properties := properties[TintBufferKey := TextureValue(holoObjectTintBuffer)];
      properties := properties[OrientationKey := MatrixValue(orientation)];
      properties := properties[LineOffsetKey := ScrollOffsetValue];
      assert properties == CompositeProperties(Targets(), orientation);

      // apply the buffers to the camera target, running the hologram effect
      cmd.SetRenderTarget(ctx.cameraColorBuffer, ctx.cameraDepthBuffer, ClearNone);
      cmd.DrawFullScreen(hologramMaterial, properties, CompositePassId);
      assert cmd.commands == afterCapture + CompositeCommands(Targets(), ctx.cameraColorBuffer, ctx.cameraDepthBuffer,
                                                              hologramMaterial, orientation);
      completion := Normal;
    }

    /** Releases all three targets. */
    method Cleanup()
      requires holoObjectBuffer != null && holoObjectBufferDepth != null && holoObjectTintBuffer != null
      modifies holoObjectBuffer, holoObjectBufferDepth, holoObjectTintBuffer
      ensures TargetsReleased()
    {
      holoObjectBuffer.Release();
      holoObjectBufferDepth.Release();
      holoObjectTintBuffer.Release();
    }
  }
}
