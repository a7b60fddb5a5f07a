/** The commands one `Execute` call records, as a function of the pass's
    configuration and targets, and the facts about their shape: ordering, clear
    flags, depth-test policy, count and the composite's bindings. */
module PassCommands {
  import opened Rendering
  import opened LayerMappings

  /** The three off-screen targets the pass owns. */
  datatype TargetSet = TargetSet(objectBuffer: RTHandle?, objectDepth: RTHandle?, tintBuffer: RTHandle?)

  /** Depth override of every capture draw: write depth, pass on less-or-equal. */
  const CaptureDepthState := DepthState(true, LessEqual)

  const ObjectBufferKey := "_HologramObjectBuffer"
  const ObjectDepthKey := "_HologramObjectBufferDepth"
  const TintBufferKey := "_HologramObjectTintBuffer"
  const OrientationKey := "_EffectOrientation"
  const LineOffsetKey := "_LineOffset"

  /** The hologram material's scanline texture, whose mip bias `Execute` sets. */
  const LinesTextureKey := "_LinesTexture"

  /** The shader pass of the hologram material used for the composite. */
  const CompositePassId := 0

  /** The draw of one mapping's objects: with its tint material as override in
      the tint pre-pass, with the objects' own materials (no override) after. */
  function CaptureDraw(mapping: LayerTintMapping, withTint: bool): Command {
    DrawRenderers(mapping.hologramObjectLayers, CaptureDepthState,
                  if withTint then mapping.tintMaterial else NullMaterial)
  }

  /** One capture phase: a draw per mapping, in list order. */
  function CaptureDraws(mappings: seq<LayerTintMapping>, withTint: bool): seq<Command>
    decreases |mappings|
  {
    if mappings == [] then []
    else CaptureDraws(mappings[..|mappings| - 1], withTint) + [CaptureDraw(mappings[|mappings| - 1], withTint)]
  }

  /** The property block of the composite draw, bound in the order of the source. */
  function CompositeProperties(targets: TargetSet, orientation: Matrix4x4): map<string, PropertyValue> {
    map[][ObjectBufferKey := TextureValue(targets.objectBuffer)]
         [ObjectDepthKey := TextureValue(targets.objectDepth)]
         [TintBufferKey := TextureValue(targets.tintBuffer)]
         [OrientationKey := MatrixValue(orientation)]
         [LineOffsetKey := ScrollOffsetValue]
  }

  /** The two capture phases: the tint / depth pre-pass into the tint buffer
      (clearing colour and depth), then the object pass into the object buffer
      (clearing colour only), both against the pass's own depth target. */
  function CaptureCommands(mappings: seq<LayerTintMapping>, targets: TargetSet): seq<Command> {
    [SetRenderTarget(targets.tintBuffer, targets.objectDepth, ClearAll)]
    + CaptureDraws(mappings, true)
    + [SetRenderTarget(targets.objectBuffer, targets.objectDepth, ClearColor)]
    + CaptureDraws(mappings, false)
  }

  /** The composite: switch to the camera's targets without clearing, then one
      full-screen draw of the hologram material. */
  function CompositeCommands(targets: TargetSet, cameraColor: RTHandle, cameraDepth: RTHandle,
                             hologramMaterial: Material, orientation: Matrix4x4): seq<Command>
  {
    [SetRenderTarget(cameraColor, cameraDepth, ClearNone),
     DrawFullScreen(hologramMaterial, CompositeProperties(targets, orientation), CompositePassId)]
  }

  /** Everything one `Execute` call that completes appends to the command buffer. */
  function ExecuteCommands(mappings: seq<LayerTintMapping>, targets: TargetSet,
                           cameraColor: RTHandle, cameraDepth: RTHandle,
                           hologramMaterial: Material, orientation: Matrix4x4): seq<Command>
  {
    CaptureCommands(mappings, targets) + CompositeCommands(targets, cameraColor, cameraDepth, hologramMaterial, orientation)
  }

  /** A capture phase holds exactly one draw per mapping, at the mapping's own
      position, gated by that mapping's own mask. */
  lemma {:induction false} CaptureDrawsAt(mappings: seq<LayerTintMapping>, withTint: bool)
    ensures |CaptureDraws(mappings, withTint)| == |mappings|
    ensures forall k :: 0 <= k < |mappings| ==>
      CaptureDraws(mappings, withTint)[k] ==
        DrawRenderers(mappings[k].hologramObjectLayers, DepthState(true, LessEqual),
                      if withTint then mappings[k].tintMaterial else NullMaterial)
    decreases |mappings|
  {
    if mappings != [] {
      var init := mappings[..|mappings| - 1];
      CaptureDrawsAt(init, withTint);
      forall k | 0 <= k < |init|
        ensures CaptureDraws(mappings, withTint)[k] == CaptureDraw(mappings[k], withTint)
      {
        assert init[k] == mappings[k];
      }
    }
  }

  /** For n mappings the capture phases are 2n+2 commands: the tint target
      (cleared fully), n tint draws, the object target (colour cleared only)
      and n object draws. */
  lemma CaptureCommandsLayout(mappings: seq<LayerTintMapping>, targets: TargetSet)
    ensures var c := CaptureCommands(mappings, targets);
      var n := |mappings|;
      && |c| == 2 * n + 2
      && c[0] == SetRenderTarget(targets.tintBuffer, targets.objectDepth, ClearAll)
      && (forall k :: 0 <= k < n ==>
            c[1 + k] == DrawRenderers(mappings[k].hologramObjectLayers, DepthState(true, LessEqual), mappings[k].tintMaterial))
      && c[n + 1] == SetRenderTarget(targets.objectBuffer, targets.objectDepth, ClearColor)
      && (forall k :: 0 <= k < n ==>
            c[n + 2 + k] == DrawRenderers(mappings[k].hologramObjectLayers, DepthState(true, LessEqual), NullMaterial))
  {
    var n := |mappings|;
    CaptureCommandsSplit(mappings, targets);
    forall k | 0 <= k < n
      ensures CaptureCommands(mappings, targets)[1 + k] == CaptureDraw(mappings[k], true)
      ensures CaptureCommands(mappings, targets)[n + 2 + k] == CaptureDraw(mappings[k], false)
    {
      CaptureCommandAt(mappings, targets, k);
    }
  }

  /** The capture commands' length and the two target switches. */
  lemma CaptureCommandsSplit(mappings: seq<LayerTintMapping>, targets: TargetSet)
    ensures var c := CaptureCommands(mappings, targets);
      && |c| == 2 * |mappings| + 2
      && c[0] == SetRenderTarget(targets.tintBuffer, targets.objectDepth, ClearAll)
      && c[|mappings| + 1] == SetRenderTarget(targets.objectBuffer, targets.objectDepth, ClearColor)
  {
    CaptureDrawsAt(mappings, true);
    CaptureDrawsAt(mappings, false);
    var head := [SetRenderTarget(targets.tintBuffer, targets.objectDepth, ClearAll)] + CaptureDraws(mappings, true);
    assert |head| == |mappings| + 1;
  }

  /** The k-th mapping's two draws within the capture commands. */
  lemma CaptureCommandAt(mappings: seq<LayerTintMapping>, targets: TargetSet, k: nat)
    requires k < |mappings|
    ensures |CaptureCommands(mappings, targets)| == 2 * |mappings| + 2
    ensures CaptureCommands(mappings, targets)[1 + k] == CaptureDraw(mappings[k], true)
    ensures CaptureCommands(mappings, targets)[|mappings| + 2 + k] == CaptureDraw(mappings[k], false)
  {
    var tint, objects := CaptureDraws(mappings, true), CaptureDraws(mappings, false);
    CaptureCommandsSplit(mappings, targets);
    CaptureDrawsAt(mappings, true);
    CaptureDrawsAt(mappings, false);
    var head := [SetRenderTarget(targets.tintBuffer, targets.objectDepth, ClearAll)] + tint;
    var middle := head + [SetRenderTarget(targets.objectBuffer, targets.objectDepth, ClearColor)];
    assert head[1 + k] == tint[k];
    assert middle[1 + k] == tint[k];
    assert |middle| == |mappings| + 2;
    assert (middle + objects)[|middle| + k] == objects[k];
  }

  /** For n mappings a completed `Execute` records 2n+4 commands: the 2n+2
      capture commands, then the camera target (no clear) and the composite. */
  lemma ExecuteCommandsLayout(mappings: seq<LayerTintMapping>, targets: TargetSet,
                              cameraColor: RTHandle, cameraDepth: RTHandle,
                              hologramMaterial: Material, orientation: Matrix4x4)
    ensures var r := ExecuteCommands(mappings, targets, cameraColor, cameraDepth, hologramMaterial, orientation);
      var n := |mappings|;
      && |r| == 2 * n + 4
      && r[0] == SetRenderTarget(targets.tintBuffer, targets.objectDepth, ClearAll)
      && (forall k :: 0 <= k < n ==>
            r[1 + k] == DrawRenderers(mappings[k].hologramObjectLayers, DepthState(true, LessEqual), mappings[k].tintMaterial))
      && r[n + 1] == SetRenderTarget(targets.objectBuffer, targets.objectDepth, ClearColor)
      && (forall k :: 0 <= k < n ==>
            r[n + 2 + k] == DrawRenderers(mappings[k].hologramObjectLayers, DepthState(true, LessEqual), NullMaterial))
      && r[2 * n + 2] == SetRenderTarget(cameraColor, cameraDepth, ClearNone)
      && r[2 * n + 3] == DrawFullScreen(hologramMaterial, CompositeProperties(targets, orientation), 0)
  {
    var c := CaptureCommands(mappings, targets);
    var r := ExecuteCommands(mappings, targets, cameraColor, cameraDepth, hologramMaterial, orientation);
    CaptureCommandsLayout(mappings, targets);
    assert forall i :: 0 <= i < |c| ==> r[i] == c[i];
  }

  /** When `Execute` stops at the lines texture, what it has recorded is the
      first 2n+2 commands of a completed frame: no camera target switch and no
      full-screen draw, and every target switch binds the pass's own depth. */
  lemma CaptureCommandsArePrefix(mappings: seq<LayerTintMapping>, targets: TargetSet,
                                 cameraColor: RTHandle, cameraDepth: RTHandle,
                                 hologramMaterial: Material, orientation: Matrix4x4)
    ensures var c := CaptureCommands(mappings, targets);
      && |c| == 2 * |mappings| + 2
      && c == ExecuteCommands(mappings, targets, cameraColor, cameraDepth, hologramMaterial, orientation)[..2 * |mappings| + 2]
      && (forall i :: 0 <= i < |c| ==> !c[i].DrawFullScreen?)
      && (forall i :: 0 <= i < |c| && c[i].SetRenderTarget? ==> c[i].depthBuffer == targets.objectDepth)
  {
    var c := CaptureCommands(mappings, targets);
    var n := |mappings|;
    CaptureCommandsLayout(mappings, targets);
    forall i | 0 <= i < |c|
      ensures !c[i].DrawFullScreen?
      ensures c[i].SetRenderTarget? ==> c[i].depthBuffer == targets.objectDepth
    {
      if 1 <= i <= n {
        assert c[1 + (i - 1)] == CaptureDraw(mappings[i - 1], true);
      } else if n + 2 <= i {
        assert c[n + 2 + (i - n - 2)] == CaptureDraw(mappings[i - n - 2], false);
      }
    }
  }

  /** Both capture phases render against the pass's own depth target, and only
      the first target switch clears depth: the object pass reuses the depth the
      tint pre-pass laid down, and the composite preserves the camera's. */
  lemma DepthClearedOnlyByPrePass(mappings: seq<LayerTintMapping>, targets: TargetSet,
                                  cameraColor: RTHandle, cameraDepth: RTHandle,
                                  hologramMaterial: Material, orientation: Matrix4x4)
    ensures var r := ExecuteCommands(mappings, targets, cameraColor, cameraDepth, hologramMaterial, orientation);
      forall i :: 0 <= i < |r| && r[i].SetRenderTarget? ==>
        && (ClearsDepth(r[i].clearFlag) <==> i == 0)
        && (ClearsColor(r[i].clearFlag) <==> i <= |mappings| + 1)
        && (i <= |mappings| + 1 ==> r[i].depthBuffer == targets.objectDepth)
  {
    var r := ExecuteCommands(mappings, targets, cameraColor, cameraDepth, hologramMaterial, orientation);
    var n := |mappings|;
    ExecuteCommandsLayout(mappings, targets, cameraColor, cameraDepth, hologramMaterial, orientation);
    forall i | 0 <= i < |r|
      ensures r[i].SetRenderTarget? ==>
        && (ClearsDepth(r[i].clearFlag) <==> i == 0)
        && (ClearsColor(r[i].clearFlag) <==> i <= n + 1)
        && (i <= n + 1 ==> r[i].depthBuffer == targets.objectDepth)
    {
      if 1 <= i <= n {
        assert r[1 + (i - 1)] == CaptureDraw(mappings[i - 1], true);
      } else if n + 2 <= i < 2 * n + 2 {
        assert r[n + 2 + (i - n - 2)] == CaptureDraw(mappings[i - n - 2], false);
      }
    }
  }

  /** Every renderer draw writes depth and tests less-or-equal, selects only
      layers the culling mask includes, and carries an override material only in
      the tint pre-pass (the mapping's tint material, passed through even when
      null). */
  lemma CaptureDrawPolicy(mappings: seq<LayerTintMapping>, targets: TargetSet,
                          cameraColor: RTHandle, cameraDepth: RTHandle,
                          hologramMaterial: Material, orientation: Matrix4x4)
    ensures var r := ExecuteCommands(mappings, targets, cameraColor, cameraDepth, hologramMaterial, orientation);
      forall i :: 0 <= i < |r| && r[i].DrawRenderers? ==>
        && r[i].depthState.writeEnabled
        && r[i].depthState.compareFunction == LessEqual
        && Includes(AggregateMask(mappings), r[i].layerMask)
        && (i <= |mappings| ==> r[i].overrideMaterial == mappings[i - 1].tintMaterial)
        && (i > |mappings| ==> r[i].overrideMaterial == NullMaterial)
  {
    var r := ExecuteCommands(mappings, targets, cameraColor, cameraDepth, hologramMaterial, orientation);
    var n := |mappings|;
    ExecuteCommandsLayout(mappings, targets, cameraColor, cameraDepth, hologramMaterial, orientation);
    AggregateIncludesEveryMapping(mappings);
    forall i | 0 <= i < |r| && r[i].DrawRenderers?
      ensures r[i].depthState == DepthState(true, LessEqual)
      ensures Includes(AggregateMask(mappings), r[i].layerMask)
      ensures i <= n ==> 1 <= i && r[i].overrideMaterial == mappings[i - 1].tintMaterial
      ensures i > n ==> r[i].overrideMaterial == NullMaterial
    {
      if 1 <= i <= n {
        assert r[1 + (i - 1)] == CaptureDraw(mappings[i - 1], true);
      } else if n + 2 <= i < 2 * n + 2 {
        assert r[n + 2 + (i - n - 2)] == CaptureDraw(mappings[i - n - 2], false);
      }
    }
  }

  /** The composite is the last command, the only full-screen draw, uses shader
      pass 0 of the hologram material, and binds exactly the five effect inputs:
      the three off-screen targets, the orientation and the line offset. */
  lemma CompositeIsLast(mappings: seq<LayerTintMapping>, targets: TargetSet,
                        cameraColor: RTHandle, cameraDepth: RTHandle,
                        hologramMaterial: Material, orientation: Matrix4x4)
    ensures var r := ExecuteCommands(mappings, targets, cameraColor, cameraDepth, hologramMaterial, orientation);
      && r[|r| - 1].DrawFullScreen?
      && r[|r| - 1].material == hologramMaterial
      && r[|r| - 1].shaderPassId == 0
      && r[|r| - 1].properties.Keys
           == {"_HologramObjectBuffer", "_HologramObjectBufferDepth", "_HologramObjectTintBuffer",
               "_EffectOrientation", "_LineOffset"}
      && r[|r| - 1].properties["_HologramObjectBuffer"] == TextureValue(targets.objectBuffer)
      && r[|r| - 1].properties["_HologramObjectBufferDepth"] == TextureValue(targets.objectDepth)
      && r[|r| - 1].properties["_HologramObjectTintBuffer"] == TextureValue(targets.tintBuffer)
      && r[|r| - 1].properties["_EffectOrientation"] == MatrixValue(orientation)
      && (forall i :: 0 <= i < |r| - 1 ==> !r[i].DrawFullScreen?)
  {
    var r := ExecuteCommands(mappings, targets, cameraColor, cameraDepth, hologramMaterial, orientation);
    var n := |mappings|;
    ExecuteCommandsLayout(mappings, targets, cameraColor, cameraDepth, hologramMaterial, orientation);
    forall i | 0 <= i < |r| - 1
      ensures !r[i].DrawFullScreen?
    {
      if 1 <= i <= n {
        assert r[1 + (i - 1)] == CaptureDraw(mappings[i - 1], true);
      } else if n + 2 <= i < 2 * n + 2 {
        assert r[n + 2 + (i - n - 2)] == CaptureDraw(mappings[i - n - 2], false);
      }
    }
  }
}
