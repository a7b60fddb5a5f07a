# OpaqueHologramPass, modelled in Dafny

`OpaqueHologramPass` is an HDRP custom pass. It gives objects on selected
layers a hologram look in four steps:

1. It widens the camera's culling mask so those objects are not culled.
2. It draws them twice into its own off-screen targets:
   - first a tint / depth pre-pass, with each mapping's tint material as override;
   - then an object-colour pass that reuses the same depth buffer.
3. It composites the result onto the camera target with one full-screen draw.
4. Three render targets are allocated in `Setup` and released in `Cleanup`.

The model keeps what the pass itself decides:
- the culling mask it writes;
- the exact sequence of commands it records each frame: target switches with their clear flags, renderer draws with their mask, depth state and override material, and the composite with its property bindings;
- the lifecycle of its three render-target handles.

Engine calls become recorded command values. Nothing is rasterised.

Files:
- `rendering.dfy` (module `Rendering`): the engine surface the pass uses.
  - `RTHandle` is a class with a descriptor, an `Alloc` constructor and `Release`.
  - `ClearFlag` uses Unity's flag bits: colour 1, depth 2, stencil 4, all 7.
  - Also here: `DepthState`, `Command`, and a `CommandBuffer` class that appends commands.
- `layer_mappings.dfy` (module `LayerMappings`):
  - `LayerTintMapping`;
  - `AggregateMask`, the OR-fold the culling step computes, with its algebraic lemmas.
- `pass_commands.dfy` (module `PassCommands`):
  - `ExecuteCommands`, the exact command list one `Execute` call appends;
  - lemmas about its shape.
- `opaque_hologram_pass.dfy` (module `OpaqueHolograms`): the `OpaqueHologramPass` class.
  - Its fields are the configuration and the three handles.
  - Its methods are `Setup`, `AggregateCullingParameters`, `Execute` and `Cleanup`.
  - `Execute` is proved to append exactly `ExecuteCommands(...)` when it completes, and exactly the capture commands when it throws at the lines texture.
  - `AggregateCullingParameters` is proved to write exactly `AggregateMask(...)`.

Behaviour the model takes from the code as written:
- `AggregateCullingParameters` overwrites the incoming culling mask. It does not OR the aggregate into it.
- The tint pre-pass always runs, even when no mapping has a tint material.
- A null tint material is not skipped. It is passed as the override material unchanged.
- Nothing guards against calling `Execute` before `Setup`. The model's `Execute` then records the null handles it finds.
- `Execute` fetches the hologram material's `_LinesTexture` without a null check, and then writes that texture's mip bias. When the material is null, or has no such texture assigned, the call throws a null reference there. By then both capture phases are recorded, but the camera target switch and the composite are not. The model's `Execute` reports this outcome as `NullReferenceThrown`.

## Model

| member | source | states |
|---|---|---|
| `LayerMappings.AggregateIncludesEveryMapping` | Assets/OpaqueHolograms/OpaqueHologramPass.cs:61-65 | Every mapping's `hologramObjectLayers` bits are contained in the aggregated mask. |
| `LayerMappings.AggregateIsLeast` | Assets/OpaqueHolograms/OpaqueHologramPass.cs:61-65 | Any mask that contains every mapping's layers also contains the aggregate, so the aggregate selects nothing extra (and the empty list gives 0). |
| `LayerMappings.AggregateSelectsLayer` | Assets/OpaqueHolograms/OpaqueHologramPass.cs:61-65 | Layer bit k is set in the aggregate if and only if some mapping sets it (both directions). |
| `LayerMappings.AggregateDependsOnlyOnLayerSet` | Assets/OpaqueHolograms/OpaqueHologramPass.cs:62-65 | Two mapping lists with the same set of layer masks give the same aggregate. Order, duplicates and tint materials do not matter. |
| `LayerMappings.AggregateIsOrderIndependent` | Assets/OpaqueHolograms/OpaqueHologramPass.cs:62-65 | Any permutation of the mapping list gives the same aggregate. |
| `OpaqueHolograms.OpaqueHologramPass.AggregateCullingParameters` | Assets/OpaqueHolograms/OpaqueHologramPass.cs:58-67 | The loop writes exactly the OR-fold of the mappings' layers into `cullingMask`. It replaces the incoming mask, so no prior bit survives. An empty list yields 0. The other culling settings are unchanged. |
| `OpaqueHolograms.OpaqueHologramPass.constructor` | Assets/OpaqueHolograms/OpaqueHologramPass.cs:20-32 | Field defaults: no mappings, `B10G11R11_UFloatPack32` colour format, `Depth24`, identity rotation, unit scale, and no handles allocated. |
| `OpaqueHolograms.OpaqueHologramPass.Setup` | Assets/OpaqueHolograms/OpaqueHologramPass.cs:37-55 | Allocates three fresh, distinct, unreleased handles with the descriptors of the three `RTHandles.Alloc` calls. Only the handle fields change. |
| `OpaqueHolograms.TargetDescriptorsAgree` | Assets/OpaqueHolograms/OpaqueHologramPass.cs:39-54 | All three targets share the `Vector2.one` scale, the XR slice count and dimension, and dynamic scaling. Object and tint buffers use `colorBufferFormat` without depth bits. The depth target is `R32_SFloat` with `depthBits`. |
| `OpaqueHolograms.OpaqueHologramPass.Execute` | Assets/OpaqueHolograms/OpaqueHologramPass.cs:69-114 | Completes exactly when the hologram material is non-null and has a `_LinesTexture`; then it appends exactly `ExecuteCommands(mappings, handles, camera targets, hologramMaterial, TRS(0, rotation, scale))`. Otherwise it throws a null reference after appending exactly `CaptureCommands(mappings, handles)`. Neither the mappings nor the handle fields change. |
| `OpaqueHolograms.RecordCapturePhase` | Assets/OpaqueHolograms/OpaqueHologramPass.cs:73-94 | One capture phase appends its target switch, then exactly one draw per mapping in list order (`CaptureDraws`). |
| `OpaqueHolograms.OpaqueHologramPass.Cleanup` | Assets/OpaqueHolograms/OpaqueHologramPass.cs:116-121 | After the call, all three handles are released. |
| `PassCommands.CaptureDrawsAt` | Assets/OpaqueHolograms/OpaqueHologramPass.cs:74-94 | Each capture phase has exactly one draw per mapping, in list order. Each draw uses that mapping's own mask, depth write and `LessEqual`. The tint phase overrides with the mapping's tint material; the object phase has no override. |
| `PassCommands.CaptureCommandsLayout` | Assets/OpaqueHolograms/OpaqueHologramPass.cs:73-94 | For n mappings the capture phases are 2n+2 commands: SetRenderTarget(tint, depth, All), n tint draws in list order, SetRenderTarget(object, depth, Color), n object draws in list order. |
| `PassCommands.CaptureCommandsArePrefix` | Assets/OpaqueHolograms/OpaqueHologramPass.cs:73-99 | What a throwing `Execute` records is exactly the first 2n+2 commands of a completed frame. It holds no full-screen draw, and every target switch in it binds the pass's own depth target. |
| `PassCommands.ExecuteCommandsLayout` | Assets/OpaqueHolograms/OpaqueHologramPass.cs:73-112 | For n mappings a completed `Execute` records 2n+4 commands, in this order: SetRenderTarget(tint, depth, All), n tint draws, SetRenderTarget(object, depth, Color), n object draws, SetRenderTarget(camera colour, camera depth, None), then DrawFullScreen(hologram, block, 0). |
| `PassCommands.DepthClearedOnlyByPrePass` | Assets/OpaqueHolograms/OpaqueHologramPass.cs:73-111 | Among the target switches, only the first clears depth. The first two clear colour and the camera switch clears nothing. Both capture switches bind the pass's own depth target. |
| `PassCommands.CaptureDrawPolicy` | Assets/OpaqueHolograms/OpaqueHologramPass.cs:61-94 | Every renderer draw writes depth with `LessEqual`. Every draw selects only layers inside the culling mask `AggregateCullingParameters` writes. Only draws of the first phase carry an override, and it is the mapping's tint material, null included. |
| `PassCommands.CompositeIsLast` | Assets/OpaqueHolograms/OpaqueHologramPass.cs:103-112 | The last command is the only full-screen draw: hologram material, pass 0. It binds exactly five keys: `_HologramObjectBuffer`, `_HologramObjectBufferDepth` and `_HologramObjectTintBuffer` (the three handles), `_EffectOrientation` (the TRS matrix) and `_LineOffset`. |

## Left out

- OpaqueHolograms.OpaqueHologramPass.Execute: does not model the `scrollPos` field or its update (lines 35, 100). That update is single-precision float `%` over `1 / scrollVelocity.magnitude`, a square root, with `Time.deltaTime` and an unguarded division by zero when the velocity is zero. So the model's `Execute` changes none of the pass's fields, while the source also writes `scrollPos`.
- `_LineOffset`'s value (line 108) is `Vector3.LerpUnclamped` of float data. It is bound to the opaque `ScrollOffsetValue`; only its key is modelled.
- The `_EffectOrientation` matrix (line 96) is kept as the symbolic `Matrix4x4.TRS(zero, effectRotation, effectScale)`, with no matrix arithmetic.
- The value `mipMapBias` is set to (line 99) is left out, and so are `mipBias` and `scrollVelocity` as configuration. This is a float field on a shared engine asset. Only whether the write can happen is modelled: a `Material` lists the texture names assigned to it, and a null material or a missing `_LinesTexture` ends `Execute` with `NullReferenceThrown`.
- `scanlineMinRemap` / `scanlineMaxRemap` (lines 18-19) are never read by the pass, so they have no behaviour to model.
- The profiler marker (lines 34, 71, 113), serialization attributes and inspector metadata are instrumentation and editor glue.
- Engine internals are represented only by their arguments:
  - `RTHandles.Alloc` is an `RTHandle` carrying its descriptor;
  - `TextureXR.slices` / `.dimension` are a `Setup` parameter;
  - `CoreUtils.SetRenderTarget`, `CustomPassUtils.DrawRenderers` and `CoreUtils.DrawFullScreen` are commands appended to the buffer;
  - `DrawRenderers` keeps only the layer mask, the depth part of the `RenderStateBlock` and the override material; its defaulted arguments (render queue, sorting) are not recorded.
- GPU behaviour is not modelled: rasterisation, the depth test's effect on pixels, and last-write-wins on depth ties.
- `Setup`'s `renderContext` and `cmd` arguments are unused by the source and are not parameters of the model.
- OpaqueHolograms.OpaqueHologramPass.Cleanup: requires the three handles to be non-null. The source calls `Release()` on them unguarded, which throws if `Setup` never ran. Releasing a handle twice is not modelled as an error, because `RTHandle.Release`'s own behaviour is not part of this model.
