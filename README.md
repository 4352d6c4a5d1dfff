# learnd3d11 core: a Dafny model

This project models the logic at the heart of the learnd3d11 Direct3D 11
tutorials. The logic sits underneath the calls into Direct3D, DXGI, GLFW,
Assimp and the texture libraries. It covers:

- **Resource tables.** A pipeline keeps a `std::unordered_map` from a resource
  descriptor to a GPU object. The three-field descriptor (type, stage, slot) of
  the later chapters compares and hashes on type and slot only. The two-field
  descriptor of the texturing chapter compares on both of its fields. Binding
  is last-write-wins.
- **DeviceContext façades.** Five variants wrap the immediate context. Each
  tracks an active pipeline and the vertex and index counts that it derives from
  a buffer's byte width. The context is modelled as its bindings (slot tables,
  shaders, states, viewport, targets) plus the trace of every call made on it.
  `SetPipeline`'s loop over the resource table is proved to bind the same thing
  whatever order the map is walked in.
- **Factories.** The vertex-layout tables and `GetLayoutByteSize`, the success
  and failure shape of `CreatePipeline` and `CreateShaderCollection`, and shader
  compilation. The compiler and the device are oracles.
- **Mesh loading.** `LoadModel` of the model factory and of the two mesh
  chapters: the three import checks, one vertex per mesh vertex with default
  colour and texture coordinate, and the face indices concatenated in order. The
  buffers it creates give their counts back to `SetVertexBuffer` and
  `SetIndexBuffer`. The models chapter's `Load` fills the resource table step by
  step, and its `Render` draws through a DeviceContext.
- **Texture tables.** HelloFroge's WIC-to-DXGI and bits-per-pixel tables and
  its pixel-buffer sizes. The 3D-setup chapter's bit-count switch and row pitch.
- **Depth states.** The nine depth-stencil states of the depth-buffer chapter
  and its radio-button selector.
- **Input trackers.** The set-based Keyboard and Mouse that are cleared every
  frame, the Input object that forwards events to both, and the Camera chapter's
  512-flag key and button arrays.

Objects created by the device are opaque handles, and `None` stands for
`nullptr`. Every device factory method is a function field of a `Device` value,
and a `None` result is a failed HRESULT. Floats are stored as `real` and never
computed with, except where the source subtracts the cursor position for the
mouse delta and halves the window size. Fixed-width integers are written out
with explicit wrap-around (`Ints.ToU32`, `Ints.ToI8`).

Source and header text disagree in places. `1-3-2-LoadingMeshes/Pipeline.hpp`
has no `_viewport` field, yet that chapter's `DeviceContext::SetPipeline` reads
one. The model follows the `.cpp` bodies: that chapter uses the same `Pipeline`
class as the camera chapter, viewport included.

## Model

| member | source | states |
|---|---|---|
| `ResourceDescriptors.TypeCode` | src/Cpp/1-getting-started/1-3-6-Camera/ResourceDescriptor.hpp:6-11 | The enum class's underlying value, in declaration order, is one of exactly three codes below 3. |
| `ResourceDescriptors.HashFields` | src/Cpp/1-getting-started/1-3-6-Camera/ResourceDescriptor.hpp:30-34 | The hash is the slot shifted into the upper 32 bits XOR the type code, which equals slot·2³² + type code. Both fields can be read back from it. This assumes an identity `std::hash<uint64_t>` and a 64-bit `size_t` (see "## Left out"). |
| `ResourceDescriptors.HashMatchesEqual` | src/Cpp/1-getting-started/1-3-6-Camera/ResourceDescriptor.hpp:30-47 | Two descriptors hash alike if and only if `equal_to` calls them equal. Equal keys share a hash on any standard library; that unequal keys never collide assumes the identity `std::hash<uint64_t>` (see "## Left out"). |
| `ResourceDescriptors.EqualIsEquivalence` | src/Cpp/1-getting-started/1-3-6-Camera/ResourceDescriptor.hpp:40-47 | The key equality is reflexive, symmetric and transitive. |
| `ResourceDescriptors.StageDoesNotSeparateKeys` | src/Cpp/1-getting-started/1-3-6-Camera/ResourceDescriptor.hpp:19-47 | A vertex-stage buffer and a pixel-stage buffer in the same slot are equal and hash alike, so they are one map key. |
| `ResourceDescriptors.KeyOfMatchesEqual` | src/Cpp/1-getting-started/1-3-6-Camera/ResourceDescriptor.hpp:40-47 | Two descriptors have the same key class (type and slot, without the stage) exactly when `equal_to` holds, so a map keyed by the class behaves as the unordered_map. |
| `ResourceDescriptors.StoredDescriptor` | src/Cpp/1-getting-started/1-3-6-Camera/Pipeline.cpp:8 | The key object a table entry keeps has the entry's stored stage. `equal_to` matches it with exactly the descriptors whose type and slot form the entry's key. |
| `ResourceDescriptors.Assign` | src/Cpp/1-getting-started/1-3-6-Camera/Pipeline.cpp:3-26 | `table[d] = r`: the keys grow by d's class only; that entry holds r; an existing key keeps its first stage (a new one takes d's); every other entry is unchanged. |
| `ResourceDescriptors.AssignNewKey` | src/Cpp/1-getting-started/1-3-6-Camera/Pipeline.cpp:3-9 | Assigning to a key not yet present inserts it with the descriptor's own stage. |
| `ResourceDescriptors.SecondAssignOverrides` | src/Cpp/1-getting-started/1-3-6-Camera/ResourceDescriptor.hpp:40-47 | Two assignments to equal keys give one entry. It holds the second resource and the first key's stage. |
| `TexturingPipelines.EqualIsIdentity` | src/Cpp/1-getting-started/1-3-1-ImageLibrary/ResourceDescriptor.hpp:34-41 | The two-field equality holds exactly when the descriptors are identical. |
| `TexturingPipelines.HashMatchesEqual` | src/Cpp/1-getting-started/1-3-1-ImageLibrary/ResourceDescriptor.hpp:24-41 | The two-field hash agrees with the equality in both directions, under the same identity-hash assumption. |
| `TexturingPipelines.SameSlotDistinctTypes` | src/Cpp/1-getting-started/1-3-1-ImageLibrary/ResourceDescriptor.hpp:34-41 | A texture and a sampler in the same slot are unequal keys. Their hashes differ under the identity-hash assumption. |
| `TexturingPipelines.Pipeline.constructor` | src/Cpp/1-getting-started/1-3-1-Texturing/Pipeline.hpp:26-32 | The member initialisers: null shaders and layout, an empty table, topology and viewport value-initialised, vertex size 0. |
| `TexturingPipelines.TextureAndSamplerCoexist` | src/Cpp/1-getting-started/1-3-1-Texturing/Pipeline.cpp:5-16 | Binding a texture and then a sampler at one slot leaves both entries, each with its own object. The keys grow by exactly those two. |
| `TexturingPipelines.Pipeline.BindTexture` | src/Cpp/1-getting-started/1-3-1-Texturing/Pipeline.cpp:3-9 | The table maps (Texture, slot) to the texture and keeps every other entry. It grows by one exactly when the key is new. |
| `TexturingPipelines.Pipeline.BindSampler` | src/Cpp/1-getting-started/1-3-1-Texturing/Pipeline.cpp:11-17 | The same, for (Sampler, slot). |
| `TexturingPipelines.Pipeline.SetViewport` | src/Cpp/1-getting-started/1-3-1-Texturing/Pipeline.cpp:19-31 | The viewport holds the four arguments with depth range 0..1. Only the viewport field may change. |
| `Pipelines.BindDescriptorsAreVertexStage` | src/Cpp/1-getting-started/1-3-6-Camera/Pipeline.cpp:5-24 | The value-initialised descriptors of all three Bind methods carry VertexStage, textures and samplers included. |
| `Pipelines.KindsShareASlot` | src/Cpp/1-getting-started/1-3-2-LoadingMeshes/Pipeline.cpp:3-26 | A texture, a sampler and a buffer bound at one slot make three distinct entries, each holding its own object. |
| `Pipelines.RebindReplaces` | src/Cpp/1-getting-started/1-3-2-LoadingMeshes/Pipeline.cpp:8-25 | For each Bind method, rebinding a slot gives the same table as binding only the second object: last write wins, with no second entry. |
| `Pipelines.Pipeline.constructor` | src/Cpp/1-getting-started/1-3-6-Camera/Pipeline.hpp:28-37 | The initialisers: null objects, an empty table, topology and viewport value-initialised, vertex size 0. |
| `Pipelines.Pipeline.BindTexture` | src/Cpp/1-getting-started/1-3-6-Camera/Pipeline.cpp:3-9 | The table is the old one with (Texture, slot) assigned the texture, as `Assign` states. Every entry remains vertex-stage, and no other field changes. |
| `Pipelines.Pipeline.BindSampler` | src/Cpp/1-getting-started/1-3-6-Camera/Pipeline.cpp:11-17 | The same, for (Sampler, slot). |
| `Pipelines.Pipeline.BindVertexStageConstantBuffer` | src/Cpp/1-getting-started/1-3-6-Camera/Pipeline.cpp:19-26 | The same, for (Buffer, slot) with stage VertexStage. |
| `Pipelines.Pipeline.SetViewport` | src/Cpp/1-getting-started/1-3-6-Camera/Pipeline.cpp:28-40 | The viewport holds left, top, width and height with MinDepth 0 and MaxDepth 1. Nothing else changes. |
| `Pipelines.Pipeline.SetDepthStencilState` | src/Cpp/1-getting-started/1-3-6-Camera/Pipeline.cpp:42-45 | Replaces the depth-stencil state field only. |
| `Pipelines.Pipeline.SetRasterizerState` | src/Cpp/1-getting-started/1-3-6-Camera/Pipeline.cpp:47-50 | Replaces the rasterizer state field only. |
| `Pipelines.SetViewportTwice` | src/Cpp/1-getting-started/1-2-3-NamingThings/Pipeline.cpp:3-15 | A second SetViewport fully overrides the first, and repeating a call with the same arguments changes nothing. |
| `ResourceRouting.TargetsDistinct` | src/Cpp/1-getting-started/1-3-4-DepthBuffer/DeviceContext.cpp:51-75 | Distinct table keys are sent to distinct binding points, whatever their stages, so no two calls of the loop write the same slot. |
| `ResourceRouting.ReplayIsRouted` | src/Cpp/1-getting-started/1-3-4-DepthBuffer/DeviceContext.cpp:51-75 | Issuing the loop's calls along any repetition-free order of keys gives the order-free `Routed` bindings of the keys visited. |
| `ResourceRouting.TraversalOrderIrrelevant` | src/Cpp/1-getting-started/1-3-4-DepthBuffer/DeviceContext.cpp:51-75 | Any two traversals of the table end in the same bindings. |
| `ResourceRouting.RoutedBindsEachEntry` | src/Cpp/1-getting-started/1-3-4-DepthBuffer/DeviceContext.cpp:51-75 | After the whole table is routed, each entry's object sits at its point. Samplers go to PS samplers and textures to PS views. Buffers go to VS or PS constant buffers by their stored stage. |
| `ResourceRouting.RoutedKeepsOtherPoints` | src/Cpp/1-getting-started/1-3-4-DepthBuffer/DeviceContext.cpp:51-75 | A binding point that no entry targets keeps what it held. |
| `ResourceRouting.VertexStageTablesLeavePixelBuffers` | src/Cpp/1-getting-started/1-3-6-Camera/Pipeline.cpp:19-26 | A table filled only through the Bind methods never touches a pixel-shader constant-buffer slot. |
| `ResourceRouting.BindAll` | src/Cpp/1-getting-started/1-3-4-DepthBuffer/DeviceContext.cpp:51-75 | The loop visits each key exactly once, in an order it picks. It ends in the `Routed` bindings of the whole table, and the trace grows by one call per entry in visiting order. |
| `DeviceContextCommon.InstallShaders` | src/Cpp/1-getting-started/1-3-4-DepthBuffer/DeviceContext.cpp:46-49 | The four calls bind exactly the pipeline's input layout, topology and two shaders, and record those four calls. |
| `DeviceContextCommon.DrawVertexCount` | src/Cpp/1-getting-started/1-3-4-DepthBuffer/DeviceContext.cpp:93 | The count is the number of whole vertices the byte width holds: count·size ≤ width < (count+1)·size. |
| `DeviceContextCommon.DrawIndexCount` | src/Cpp/1-getting-started/1-3-4-DepthBuffer/DeviceContext.cpp:104 | The count is the number of whole 32-bit indices the byte width holds. |
| `DeviceContextCommon.VertexCountRoundTrip` | src/Cpp/1-getting-started/1-3-6-Camera/ModelFactory.cpp:70 | A buffer sized for n vertices of the pipeline's size gives back exactly n, when the width does not wrap. |
| `DeviceContextCommon.IndexCountRoundTrip` | src/Cpp/1-getting-started/1-3-5-Models/LoadingMeshesApplication.cpp:393-396 | A buffer sized for n 32-bit indices gives back exactly n, when the width does not wrap. |
| `DepthBufferContext.DepthAndViewportCalls` | src/Cpp/1-getting-started/1-3-4-DepthBuffer/DeviceContext.cpp:77-78 | The closing two calls set the depth-stencil state with stencil reference 0 and one viewport, and record both calls. |
| `DepthBufferContext.DeviceContext.constructor` | src/Cpp/1-getting-started/1-3-4-DepthBuffer/DeviceContext.cpp:7-16 | No active pipeline and both draw counts 0, so a Draw before any buffer draws nothing. |
| `DepthBufferContext.DeviceContext.Clear` | src/Cpp/1-getting-started/1-3-4-DepthBuffer/DeviceContext.cpp:23-41 | Clears the target, clears depth only when a depth view is given, then binds the target with that view. |
| `DepthBufferContext.DeviceContext.SetPipeline` | src/Cpp/1-getting-started/1-3-4-DepthBuffer/DeviceContext.cpp:43-79 | Records the pipeline as active. Binds its shaders, every table entry at its point (in some traversal order), its depth-stencil state with reference 0 and its viewport. Leaves the rasterizer state alone. |
| `DepthBufferContext.DeviceContext.SetVertexBuffer` | src/Cpp/1-getting-started/1-3-4-DepthBuffer/DeviceContext.cpp:81-94 | Binds the buffer at slot 0 with the pipeline's stride. The vertex count becomes the whole vertices the buffer holds; the index count is untouched. |
| `DepthBufferContext.DeviceContext.SetIndexBuffer` | src/Cpp/1-getting-started/1-3-4-DepthBuffer/DeviceContext.cpp:96-105 | Binds the buffer as R32_UINT. The index count becomes the whole 32-bit indices it holds; the vertex count is untouched. |
| `DepthBufferContext.DeviceContext.UpdateSubresource` | src/Cpp/1-getting-started/1-3-4-DepthBuffer/DeviceContext.cpp:107-116 | Records the upload and binds nothing. |
| `DepthBufferContext.DeviceContext.Draw` | src/Cpp/1-getting-started/1-3-4-DepthBuffer/DeviceContext.cpp:118-121 | Draws the stored vertex count from vertex 0 and changes no field. |
| `DepthBufferContext.DeviceContext.DrawIndexed` | src/Cpp/1-getting-started/1-3-4-DepthBuffer/DeviceContext.cpp:123-126 | Draws the stored index count from index 0 and changes no field. |
| `DepthBufferContext.DeviceContext.Flush` | src/Cpp/1-getting-started/1-3-4-DepthBuffer/DeviceContext.cpp:128-131 | Records a flush and binds nothing. |
| `LoadingMeshesContext.ViewportCall` | src/Cpp/1-getting-started/1-3-2-LoadingMeshes/DeviceContext.cpp:53 | The closing call binds exactly the pipeline's one viewport. |
| `LoadingMeshesContext.DeviceContext.constructor` | src/Cpp/1-getting-started/1-3-2-LoadingMeshes/DeviceContext.cpp:6-9 | Takes over the context. The active pipeline and both counts stay unassigned, so later calls must assign them first. |
| `LoadingMeshesContext.DeviceContext.Clear` | src/Cpp/1-getting-started/1-3-2-LoadingMeshes/DeviceContext.cpp:11-17 | Clears the target and binds it alone, with no depth view. |
| `LoadingMeshesContext.DeviceContext.SetPipeline` | src/Cpp/1-getting-started/1-3-2-LoadingMeshes/DeviceContext.cpp:19-54 | Records the pipeline. Binds shaders, every table entry at its point, and the viewport. No depth-stencil or rasterizer state. |
| `LoadingMeshesContext.DeviceContext.SetVertexBuffer` | src/Cpp/1-getting-started/1-3-2-LoadingMeshes/DeviceContext.cpp:56-64 | Needs an active pipeline. Binds at slot 0 with its stride and counts the whole vertices. |
| `LoadingMeshesContext.DeviceContext.SetIndexBuffer` | src/Cpp/1-getting-started/1-3-2-LoadingMeshes/DeviceContext.cpp:66-72 | Binds as R32_UINT and counts the whole 32-bit indices. |
| `LoadingMeshesContext.DeviceContext.UpdateSubresource` | src/Cpp/1-getting-started/1-3-2-LoadingMeshes/DeviceContext.cpp:74-77 | Records the upload and binds nothing. |
| `LoadingMeshesContext.DeviceContext.Draw` | src/Cpp/1-getting-started/1-3-2-LoadingMeshes/DeviceContext.cpp:79-82 | Needs a vertex count already computed. Draws it from 0 and changes no field. |
| `LoadingMeshesContext.DeviceContext.DrawIndexed` | src/Cpp/1-getting-started/1-3-2-LoadingMeshes/DeviceContext.cpp:84-87 | Needs an index count already computed. Draws it from 0 and changes no field. |
| `LoadingMeshesContext.DeviceContext.Flush` | src/Cpp/1-getting-started/1-3-2-LoadingMeshes/DeviceContext.cpp:89-92 | Records a flush and binds nothing. |
| `RasterizerStateContext.ViewportAndRasterizerCalls` | src/Cpp/1-getting-started/1-3-1-RasterizerState/DeviceContext.cpp:40-41 | The closing two calls bind the viewport, then the rasterizer state. |
| `RasterizerStateContext.DeviceContext.constructor` | src/Cpp/1-getting-started/1-3-1-RasterizerState/DeviceContext.cpp:6-14 | No active pipeline and both counts 0. |
| `RasterizerStateContext.DeviceContext.Clear` | src/Cpp/1-getting-started/1-3-1-RasterizerState/DeviceContext.cpp:21-30 | Clears the target and binds it with no depth view. |
| `RasterizerStateContext.DeviceContext.SetPipeline` | src/Cpp/1-getting-started/1-3-1-RasterizerState/DeviceContext.cpp:32-42 | Binds layout, topology, both shaders, the viewport and the rasterizer state. No slot resource and no depth state are bound. |
| `RasterizerStateContext.DeviceContext.SetVertexBuffer` | src/Cpp/1-getting-started/1-3-1-RasterizerState/DeviceContext.cpp:44-57 | Binds with the active pipeline's stride and counts the whole vertices. |
| `RasterizerStateContext.DeviceContext.SetIndexBuffer` | src/Cpp/1-getting-started/1-3-1-RasterizerState/DeviceContext.cpp:59-68 | Binds as R32_UINT and counts the whole indices. |
| `RasterizerStateContext.DeviceContext.UpdateSubresource` | src/Cpp/1-getting-started/1-3-1-RasterizerState/DeviceContext.cpp:70-79 | Records the upload and binds nothing. |
| `RasterizerStateContext.DeviceContext.Draw` | src/Cpp/1-getting-started/1-3-1-RasterizerState/DeviceContext.cpp:81-84 | Draws the stored vertex count. |
| `RasterizerStateContext.DeviceContext.DrawIndexed` | src/Cpp/1-getting-started/1-3-1-RasterizerState/DeviceContext.cpp:86-89 | Draws the stored index count. |
| `RasterizerStateContext.DeviceContext.Flush` | src/Cpp/1-getting-started/1-3-1-RasterizerState/DeviceContext.cpp:91-94 | Records a flush. |
| `HelloTriangleContext.DeviceContext.constructor` | src/Cpp/1-getting-started/1-1-3-HelloTriangle-Refactored/DeviceContext.cpp:8-11 | Takes over the context. The active pipeline and vertex count stay unassigned. |
| `HelloTriangleContext.DeviceContext.Clear` | src/Cpp/1-getting-started/1-1-3-HelloTriangle-Refactored/DeviceContext.cpp:13-17 | Clears the target and binds it with no depth view. |
| `HelloTriangleContext.DeviceContext.SetPipeline` | src/Cpp/1-getting-started/1-1-3-HelloTriangle-Refactored/DeviceContext.cpp:19-26 | Records the pipeline. Binds only layout, topology and the two shaders. |
| `HelloTriangleContext.DeviceContext.SetVertexBuffer` | src/Cpp/1-getting-started/1-1-3-HelloTriangle-Refactored/DeviceContext.cpp:28-34 | Needs a pipeline set before. Binds with its stride and counts the whole vertices. |
| `HelloTriangleContext.DeviceContext.SetViewport` | src/Cpp/1-getting-started/1-1-3-HelloTriangle-Refactored/DeviceContext.cpp:36-39 | Binds the one given viewport, independently of the pipeline. |
| `HelloTriangleContext.DeviceContext.Draw` | src/Cpp/1-getting-started/1-1-3-HelloTriangle-Refactored/DeviceContext.cpp:41-44 | Needs a vertex buffer set before. Draws its count from 0. |
| `HelloTriangleContext.DeviceContext.Flush` | src/Cpp/1-getting-started/1-1-3-HelloTriangle-Refactored/DeviceContext.cpp:46-49 | Records a flush. |
| `NamingThingsContext.DeviceContext.constructor` | src/Cpp/1-getting-started/1-2-3-NamingThings/DeviceContext.cpp:6-9 | Takes over the context. The active pipeline and vertex count stay unassigned. |
| `NamingThingsContext.DeviceContext.Clear` | src/Cpp/1-getting-started/1-2-3-NamingThings/DeviceContext.cpp:11-17 | Clears the target and binds it with no depth view. |
| `NamingThingsContext.DeviceContext.SetPipeline` | src/Cpp/1-getting-started/1-2-3-NamingThings/DeviceContext.cpp:19-27 | Records the pipeline. Binds layout, topology, both shaders and the pipeline's viewport. |
| `NamingThingsContext.DeviceContext.SetVertexBuffer` | src/Cpp/1-getting-started/1-2-3-NamingThings/DeviceContext.cpp:29-37 | Binds with the pipeline's stride and counts the whole vertices. |
| `NamingThingsContext.DeviceContext.Draw` | src/Cpp/1-getting-started/1-2-3-NamingThings/DeviceContext.cpp:39-42 | Draws the counted vertices and changes no state. |
| `NamingThingsContext.DeviceContext.Flush` | src/Cpp/1-getting-started/1-2-3-NamingThings/DeviceContext.cpp:44-47 | Records a flush. |
| `VertexLayouts.LayoutTable` | src/Cpp/1-getting-started/1-3-6-Camera/PipelineFactory.cpp:19-79 | Every vertex type is a key of the table, and its entry is that type's element list. |
| `VertexLayouts.TilesDoNotOverlap` | src/Cpp/1-getting-started/1-3-6-Camera/PipelineFactory.cpp:47-78 | The elements of a tiling layout are in increasing order and never overlap. |
| `VertexLayouts.TilesStayInside` | src/Cpp/1-getting-started/1-3-6-Camera/PipelineFactory.cpp:47-78 | Every element of a tiling layout ends within the vertex. |
| `VertexLayouts.LayoutsTileVertices` | src/Cpp/1-getting-started/1-3-6-Camera/PipelineFactory.cpp:23-78 | Each element list sits back to back from offset 0 and ends at the struct size. All elements are per-vertex data in input slot 0. |
| `VertexLayouts.UvLayoutExtendsColorLayout` | src/Cpp/1-getting-started/1-3-6-Camera/PipelineFactory.cpp:47-78 | The textured layout is the colour layout plus TEXCOORD (two floats) at offset 24. |
| `Shaders.CreateVertexShader` | src/Cpp/1-getting-started/1-3-6-Camera/PipelineFactory.cpp:98-153 | Through CompileShader with entry point "Main": a blob exists exactly when the vs_5_0 compile succeeds, and it is the compiler's. The shader is then the device's one for that blob; otherwise it is null and the blob stays null. |
| `Shaders.CreatePixelShader` | src/Cpp/1-getting-started/1-3-6-Camera/PipelineFactory.cpp:155-175 | Through CompileShader (lines 98-130) with entry point "Main": null when the ps_5_0 compile fails, otherwise the device's shader for the compiler's blob. |
| `PipelineFactories.GetLayoutByteSize` | src/Cpp/1-getting-started/1-3-6-Camera/PipelineFactory.cpp:9-17 | The struct size of the type (nonzero), and the type's layout tiles exactly that many bytes. |
| `PipelineFactories.PipelineFactory.constructor` | src/Cpp/1-getting-started/1-3-6-Camera/PipelineFactory.cpp:19-79 | Keeps the device and fills the layout table for exactly the two vertex types. |
| `PipelineFactories.PipelineFactory.CreatePipeline` | src/Cpp/1-getting-started/1-3-6-Camera/PipelineFactory.cpp:81-96 | Always a fresh pipeline holding the created shaders and layout (either shader may be null). Success exactly when the layout is created. Only then does it get TRIANGLELIST and the vertex size; everything else keeps its initial value. |
| `HelloTriangleFactory.GetLayoutByteSize` | src/Cpp/1-getting-started/1-1-3-HelloTriangle-Refactored/PipelineFactory.cpp:9-16 | sizeof(VertexPositionColor), 24, a nonzero size that the colour layout tiles exactly: the stride the pipeline stores matches its input layout. |
| `HelloTriangleFactory.Layout` | src/Cpp/1-getting-started/1-1-3-HelloTriangle-Refactored/PipelineFactory.cpp:22-44 | POSITION then COLOR, three floats each, tiling the 24-byte vertex. |
| `HelloTriangleFactory.PipelineFactory.constructor` | src/Cpp/1-getting-started/1-1-3-HelloTriangle-Refactored/PipelineFactory.cpp:18-45 | Keeps the device; the layout table holds only the colour vertex. |
| `HelloTriangleFactory.PipelineFactory.CreatePipeline` | src/Cpp/1-getting-started/1-1-3-HelloTriangle-Refactored/PipelineFactory.cpp:47-62 | A fresh pipeline with the created shaders. Success exactly when the input layout is created, and only then TRIANGLELIST and the vertex size. |
| `ShaderCollections.LayoutMap` | src/Cpp/1-getting-started/1-3-3-SettingUp3DRendering/ShaderCollection.cpp:5-68 | The static table holds every vertex type's element list. |
| `ShaderCollections.GetLayoutByteSize` | src/Cpp/1-getting-started/1-3-3-SettingUp3DRendering/ShaderCollection.cpp:83-93 | 24 or 32 bytes, exactly the extent its layout tiles. |
| `ShaderCollections.ShaderCollection.constructor` | src/Cpp/1-getting-started/1-3-3-SettingUp3DRendering/ShaderCollection.cpp:71 | The value-initialised collection: all null, topology undefined, vertex size 0. |
| `ShaderCollections.ShaderCollection.CreateShaderCollection` | src/Cpp/1-getting-started/1-3-3-SettingUp3DRendering/ShaderCollection.cpp:69-81 | When the input layout fails the result is all null and the shaders made are dropped. Otherwise it holds both shaders and the layout. Topology and vertex size are never set. |
| `ShaderCollections.ShaderCollection.ApplyToContext` | src/Cpp/1-getting-started/1-3-3-SettingUp3DRendering/ShaderCollection.cpp:184-189 | Binds exactly the input layout, vertex shader and pixel shader, and records those three calls. |
| `ShaderCollections.ShaderCollection.Destroy` | src/Cpp/1-getting-started/1-3-3-SettingUp3DRendering/ShaderCollection.cpp:191-196 | Nulls the three objects and keeps topology and vertex size. |
| `Meshes.FirstMesh` | src/Cpp/1-getting-started/1-3-6-Camera/ModelFactory.cpp:32-49 | Each error, in order (no scene, no meshes, no positions), occurs exactly when its condition holds. Success yields mesh 0 only. |
| `Meshes.VerticesFollowMesh` | src/Cpp/1-getting-started/1-3-6-Camera/ModelFactory.cpp:51-65 | One vertex per mesh vertex. Vertex i has mesh vertex i's scaled position. Its colour is the mesh colour or grey (0.5, 0.5, 0.5), and its uv the texcoord or (0, 0), by whether the mesh has them. |
| `Meshes.AssembleVertices` | src/Cpp/1-getting-started/1-3-6-Camera/ModelFactory.cpp:53-65 | The push_back loop builds exactly that vertex list. |
| `Meshes.FlattenLength` | src/Cpp/1-getting-started/1-3-6-Camera/ModelFactory.cpp:86-95 | The index list holds as many indices as all faces together, which is the index count written. |
| `Meshes.FlattenTriangles` | src/Cpp/1-getting-started/1-3-6-Camera/ModelFactory.cpp:86-93 | With triangulated faces there are three indices per face. |
| `Meshes.FlattenAt` | src/Cpp/1-getting-started/1-3-6-Camera/ModelFactory.cpp:86-93 | Index j of face i sits after the indices of the faces before it: the concatenation keeps face order. |
| `Meshes.CollectIndices` | src/Cpp/1-getting-started/1-3-6-Camera/ModelFactory.cpp:86-93 | The nested push_back loop builds exactly the concatenation. |
| `Meshes.VertexBufferDesc` | src/Cpp/1-getting-started/1-3-6-Camera/ModelFactory.cpp:69-72 | An immutable vertex buffer of 32 bytes per vertex (when that does not wrap). |
| `Meshes.IndexBufferDesc` | src/Cpp/1-getting-started/1-3-6-Camera/ModelFactory.cpp:97-100 | An immutable index buffer of 4 bytes per index. |
| `ModelFactories.LoadOutcomeSucceeds` | src/Cpp/1-getting-started/1-3-6-Camera/ModelFactory.cpp:32-110 | LoadModel is true exactly when the mesh imports and both buffers are created. An import failure writes no output. A vertex-buffer failure leaves the index outputs untouched. |
| `ModelFactories.LoadedVerticesGiveBackCount` | src/Cpp/1-getting-started/1-3-6-Camera/ModelFactory.cpp:67-70 | After success the vertex count is the mesh's vertex count, and SetVertexBuffer recomputes it from the buffer. |
| `ModelFactories.LoadedIndicesGiveBackCount` | src/Cpp/1-getting-started/1-3-6-Camera/ModelFactory.cpp:95-98 | After success the index count is the faces' index total, and SetIndexBuffer recomputes it from the buffer. |
| `ModelFactories.ModelFactory.constructor` | src/Cpp/1-getting-started/1-3-6-Camera/ModelFactory.cpp:14-17 | Keeps the device. |
| `ModelFactories.ModelFactory.LoadModel` | src/Cpp/1-getting-started/1-3-6-Camera/ModelFactory.cpp:19-115 | The outputs and result follow the load outcome. The data handed to the buffers is the converted vertex list and the flattened index list. |
| `ModelsApplication.StopStep` | src/Cpp/1-getting-started/1-3-5-Models/LoadingMeshesApplication.cpp:153-231 | Load gets through every step exactly when the pipeline, texture, sampler and model succeed and all three constant-buffer creations succeed. It stops at pipeline creation exactly when that fails. |
| `ModelsApplication.ResourceStep` | src/Cpp/1-getting-started/1-3-5-Models/LoadingMeshesApplication.cpp:172-221 | Once the pipeline exists, Load stops at the texture exactly when it fails to load. It stops at the sampler exactly when the texture loads and the sampler fails, and at the model exactly when both succeed and the model does not load. |
| `ModelsApplication.ConstantBufferFailuresAreSeparate` | src/Cpp/1-getting-started/1-3-5-Models/LoadingMeshesApplication.cpp:201-216 | After the model loads, Load stops at the PerApplication, PerFrame or PerObject creation, whichever is the first to fail. Each failure is reachable whatever the other creations return. |
| `ModelsApplication.TableGrowsWithSteps` | src/Cpp/1-getting-started/1-3-5-Models/LoadingMeshesApplication.cpp:172-190 | After the texture step the table holds (Texture, 0) alone; after the sampler step it holds it and (Sampler, 0), each with its object. |
| `ModelsApplication.LoadedResourcesHoldFiveEntries` | src/Cpp/1-getting-started/1-3-5-Models/LoadingMeshesApplication.cpp:172-221 | A complete Load leaves exactly (Texture, 0), (Sampler, 0) and (Buffer, 0..2), each holding what was bound, all vertex-stage. |
| `ModelsApplication.LoadingMeshesApplication.constructor` | src/Cpp/1-getting-started/1-3-5-Models/LoadingMeshesApplication.cpp:68-151 | The state Initialize leaves: the device, a fresh pipeline factory, no pipeline, nothing loaded. |
| `ModelsApplication.LoadingMeshesApplication.LoadModel` | src/Cpp/1-getting-started/1-3-5-Models/LoadingMeshesApplication.cpp:323-411 | The model members and result follow the shared load outcome (positions divided by 100). After success, binding the buffers gives back both counts. |
| `ModelsApplication.LoadingMeshesApplication.CreateConstantBuffers` | src/Cpp/1-getting-started/1-3-5-Models/LoadingMeshesApplication.cpp:197-217 | Succeeds exactly when all three creations succeed. Element 0 holds the PerApplication outcome. Element 1 holds PerFrame's only when PerApplication succeeded, and element 2 PerObject's only when both earlier creations did. Elements after a failure keep what they held. |
| `ModelsApplication.LoadingMeshesApplication.CreateAndBindConstantBuffers` | src/Cpp/1-getting-started/1-3-5-Models/LoadingMeshesApplication.cpp:197-228 | On success the array holds the three distinct outcomes in order. PerApplication, PerFrame and PerObject go into vertex-stage slots 0, 1 and 2, and the projection is uploaded to PerApplication. On any failure neither the table nor the context has changed. |
| `ModelsApplication.LoadingMeshesApplication.BindTextureAndSampler` | src/Cpp/1-getting-started/1-3-5-Models/LoadingMeshesApplication.cpp:172-190 | The table holds the entries of the steps that succeeded: none, the texture, or texture and sampler. |
| `ModelsApplication.LoadingMeshesApplication.LoadModelAndConstantBuffers` | src/Cpp/1-getting-started/1-3-5-Models/LoadingMeshesApplication.cpp:192-228 | Succeeds exactly when the model loads and all three buffers are created. The full five-entry table then holds each buffer in its own slot, and the model is ready to draw. On failure the table and context are unchanged. |
| `ModelsApplication.LoadingMeshesApplication.LoadResources` | src/Cpp/1-getting-started/1-3-5-Models/LoadingMeshesApplication.cpp:172-228 | For each stopping step, including each of the three buffer creations, the table holds exactly the entries of the steps before it. Success is reaching the end; the context is untouched on failure. |
| `ModelsApplication.LoadingMeshesApplication.Load` | src/Cpp/1-getting-started/1-3-5-Models/LoadingMeshesApplication.cpp:153-231 | The whole of Load: the first failing step returns false, with the table as the earlier steps built it. After the pipeline step the window viewport, triangle list and 32-byte vertices are set. Success leaves five entries, with PerApplication, PerFrame and PerObject in slots 0-2, and the projection uploaded to PerApplication. |
| `ModelsApplication.LoadingMeshesApplication.CreateWindowPipeline` | src/Cpp/1-getting-started/1-3-5-Models/LoadingMeshesApplication.cpp:156-170 | A fresh pipeline; created exactly when its input layout is. Then it has the window-sized viewport. |
| `ModelsApplication.LoadingMeshesApplication.InstallPipeline` | src/Cpp/1-getting-started/1-3-5-Models/LoadingMeshesApplication.cpp:311-316 | Clears the target, then SetPipeline makes the pipeline active with its table routed. |
| `ModelsApplication.LoadingMeshesApplication.DrawModel` | src/Cpp/1-getting-started/1-3-5-Models/LoadingMeshesApplication.cpp:317-319 | Binds the model's buffers with stride 32 and R32_UINT, and draws exactly the model's index count. |
| `ModelsApplication.LoadingMeshesApplication.Render` | src/Cpp/1-getting-started/1-3-5-Models/LoadingMeshesApplication.cpp:309-321 | SetPipeline precedes the buffer binds, which meets their active-pipeline need. The draw covers the model's indices. |
| `LoadingMeshesChapter.SetInputAssembler` | src/Cpp/1-getting-started/1-3-2-LoadingMeshes/LoadingMeshes.cpp:350-358 | The input assembler holds the layout, the vertex buffer at stride 32, the R32_UINT index buffer and triangle lists. |
| `LoadingMeshesChapter.SetVertexStage` | src/Cpp/1-getting-started/1-3-2-LoadingMeshes/LoadingMeshes.cpp:359-367 | The vertex shader, the three constant buffers in slots 0-2 and one viewport are bound. |
| `LoadingMeshesChapter.SetPixelStage` | src/Cpp/1-getting-started/1-3-2-LoadingMeshes/LoadingMeshes.cpp:369-378 | The pixel shader, the view and sampler in slot 0, and the target without depth are bound. |
| `LoadingMeshesChapter.LoadingMeshesApplication.constructor` | src/Cpp/1-getting-started/1-3-2-LoadingMeshes/LoadingMeshes.hpp:45-69 | The member initialisers: every COM pointer null and both model counts 0. |
| `LoadingMeshesChapter.LoadingMeshesApplication.LoadModel` | src/Cpp/1-getting-started/1-3-2-LoadingMeshes/LoadingMeshes.cpp:384-470 | The members and result follow the shared load outcome with positions kept as imported. After success the buffers give back the vertex count and the faces' index total. |
| `LoadingMeshesChapter.LoadingMeshesApplication.Render` | src/Cpp/1-getting-started/1-3-2-LoadingMeshes/LoadingMeshes.cpp:331-382 | Every call in order, and the bindings they leave. The model's buffers are bound at stride 32 with 32-bit indices, and the draw is the model's index count. |
| `LoadingMeshesChapter.RenderDrawsTheModel` | src/Cpp/1-getting-started/1-3-2-LoadingMeshes/LoadingMeshes.cpp:427-456 | After a successful load that fits, the drawn index count is the number of indices over all faces, and the vertex count the bound buffer's width gives is the number of mesh vertices. |
| `HelloFroge.TextureFormat` | src/Cpp/1-getting-started/2-HelloFroge/Main.cpp:383-410 | A format maps to UNKNOWN exactly when it is not one of the fifteen listed. |
| `HelloFroge.TextureFormatIsInjective` | src/Cpp/1-getting-started/2-HelloFroge/Main.cpp:383-410 | No two listed WIC formats share a DXGI format. |
| `HelloFroge.GetBitsPerPixel` | src/Cpp/1-getting-started/2-HelloFroge/Main.cpp:412-433 | As written: the table value when it fits int8_t, and 0 for a format missing from the table. |
| `HelloFroge.BitsPerPixelWraps` | src/Cpp/1-getting-started/2-HelloFroge/Main.cpp:412-418 | The 128-bit entry comes back from the int8_t function as -128, which is 2³²-128 once widened to UINT. |
| `HelloFroge.NarrowBitsAgreeBelow128` | src/Cpp/1-getting-started/2-HelloFroge/Main.cpp:412-433 | The narrowed and wide results agree for every format but the 128-bit one. The wide result is the table's value, 0 when absent. |
| `HelloFroge.SupportedFormatsHaveBits` | src/Cpp/1-getting-started/2-HelloFroge/Main.cpp:385-433 | Every non-UNKNOWN result of the format table has an entry: a nonzero whole number of bytes, at most 128 bits. |
| `HelloFroge.RowBytes` | src/Cpp/1-getting-started/2-HelloFroge/Main.cpp:484-485 | Without wrap-around the row is the truncated width·bits/8. |
| `HelloFroge.RowBytesExact` | src/Cpp/1-getting-started/2-HelloFroge/Main.cpp:484-485 | With whole bytes per pixel the row is exactly width times the pixel's bytes. |
| `HelloFroge.SizePixelBuffer` | src/Cpp/1-getting-started/2-HelloFroge/Main.cpp:484-487 | The vector has exactly pixelDataSize zero bytes, and without wrap-around that size is height rows of width·bytes. |
| `HelloFroge.TexturePixelBuffer` | src/Cpp/1-getting-started/2-HelloFroge/Main.cpp:484-487 | With the intended bits per pixel, a known format's buffer is height rows of width·pixel-bytes. |
| `HelloFroge.WrappedBitsOversizeTheRow` | src/Cpp/1-getting-started/2-HelloFroge/Main.cpp:412-487 | As written, a 1x1 128-bit image gets a 536870896-byte row where 16 is meant. |
| `HelloFroge.CubeDrawReadsEveryIndex` | src/Cpp/1-getting-started/2-HelloFroge/Main.cpp:82-102 | All 36 indices name one of the 8 vertices. The draw reads them as R16_UINT and issues exactly as many indices as the buffer holds. |
| `Setting3D.ChooseFormat` | src/Cpp/1-getting-started/1-3-3-SettingUp3DRendering/Setting3DApplication.cpp:241-267 | Only 8, 16, 24 and 32 bits are accepted, and 24 is widened to 32. The chosen format's texel size equals the uploaded bit count. |
| `Setting3D.ChosenFormats` | src/Cpp/1-getting-started/1-3-3-SettingUp3DRendering/Setting3DApplication.cpp:241-267 | Only R8, R8G8 and R8G8B8A8 come out, and R8G8B8A8 exactly for 24 and 32 bits. |
| `Setting3D.TextureDescFor` | src/Cpp/1-getting-started/1-3-3-SettingUp3DRendering/Setting3DApplication.cpp:268-281 | An immutable single-mip shader resource of the bitmap's size and chosen format. The pitch is (bits/8)·width. |
| `Setting3D.CreateTextureView` | src/Cpp/1-getting-started/1-3-3-SettingUp3DRendering/Setting3DApplication.cpp:195-299 | Null for an unreadable bitmap or an unsupported bit count. For a supported bitmap, the result is the device's view of the texture created from the chosen description, or null when texture creation fails. A view exists only then. |
| `Setting3D.PitchMatchesFormat` | src/Cpp/1-getting-started/1-3-3-SettingUp3DRendering/Setting3DApplication.cpp:249-281 | The pitch is width times the chosen format's texel size, so 24-bit images get 4·width. |
| `Setting3D.LoadTextures` | src/Cpp/1-getting-started/1-3-3-SettingUp3DRendering/Setting3DApplication.cpp:350-358 | The fallback view is made from the default bitmap. The bound view is the DDS view when that loads, otherwise the fallback, so it is never null while the fallback exists. |
| `DepthBufferChapter.CreationIndex` | src/Cpp/1-getting-started/1-3-4-DepthBuffer/DepthBufferApplication.cpp:403-423 | Each switch case names one of the nine created states. |
| `DepthBufferChapter.SwitchMatchesButtons` | src/Cpp/1-getting-started/1-3-4-DepthBuffer/DepthBufferApplication.cpp:393-423 | Each case sets the state whose description its radio button names: selection 0 is depth disabled, and 1-8 are depth enabled with LESS, LESS_EQUAL, GREATER, GREATER_EQUAL, EQUAL, NOT_EQUAL, ALWAYS, NEVER. The nine cases pick nine different states. |
| `DepthBufferChapter.StatesDifferOnlyInDepthTest` | src/Cpp/1-getting-started/1-3-4-DepthBuffer/DepthBufferApplication.cpp:443-511 | All nine share write mask ALL and stencil off. Any two differ in depth enable or function. |
| `DepthBufferChapter.FirstFailure` | src/Cpp/1-getting-started/1-3-4-DepthBuffer/DepthBufferApplication.cpp:443-511 | Every creation before the returned position succeeds and the one at it fails. |
| `DepthBufferChapter.DepthBufferApplication.constructor` | src/Cpp/1-getting-started/1-3-4-DepthBuffer/DepthBufferApplication.hpp:69-90 | Nine null states and selection 1 ("Less"). |
| `DepthBufferChapter.DepthBufferApplication.States` | src/Cpp/1-getting-started/1-3-4-DepthBuffer/DepthBufferApplication.hpp:69-77 | The nine state members, one per created description. |
| `DepthBufferChapter.DepthBufferApplication.CreateDepthStencilStates` | src/Cpp/1-getting-started/1-3-4-DepthBuffer/DepthBufferApplication.cpp:443-511 | True exactly when all nine succeed. Each state is the device's result up to the first failure; later ones are untouched. |
| `DepthBufferChapter.DepthBufferApplication.SelectDepthFunction` | src/Cpp/1-getting-started/1-3-4-DepthBuffer/DepthBufferApplication.cpp:393-423 | Stores the selection and puts the matching state on the pipeline. A selection outside 0..8 leaves the pipeline's state as it was. |
| `DepthBufferChapter.SelectedStateIsNamedState` | src/Cpp/1-getting-started/1-3-4-DepthBuffer/DepthBufferApplication.cpp:403-423 | Once all creations succeeded, selection s sets the non-null state the device made from the description button s names. |
| `InputTrackers.KeyStateAfterEvents` | src/Cpp/1-getting-started/1-3-6-Camera/Application.cpp:62-74 | A key is held after PRESS and free after RELEASE, and any other action keeps its state. So after a run of events, a key is down exactly when the last PRESS or RELEASE was a PRESS. |
| `InputTrackers.Keyboard.constructor` | src/Cpp/1-getting-started/1-HelloWindow/Input/Keyboard.hpp:19-38 | The defaulted constructor leaves the four std::set members empty. |
| `InputTrackers.Keyboard.IsKeyUp` | src/Cpp/1-getting-started/1-HelloWindow/Input/Keyboard.cpp:27-30 | Always false: nothing ever puts a key in the up set. |
| `InputTrackers.Keyboard.HandleKey` | src/Cpp/1-getting-started/1-HelloWindow/Input/Keyboard.cpp:40-55 | PRESS adds the key to pressed and down. RELEASE adds it to released and removes it from down. Other actions change nothing. |
| `InputTrackers.Keyboard.Update` | src/Cpp/1-getting-started/1-HelloWindow/Input/Keyboard.cpp:32-38 | All four sets are emptied. |
| `InputTrackers.PressAndReleaseInOneFrame` | src/Cpp/1-getting-started/1-HelloWindow/Input/Keyboard.cpp:47-53 | A press and a release in one frame leave the key pressed and released but not down. |
| `InputTrackers.Mouse.constructor` | src/Cpp/1-getting-started/1-1-1-HelloWindow/Input/Mouse.cpp:26-28 | Empty sets, both positions at the origin, cursor not captured. |
| `InputTrackers.Mouse.HandleButton` | src/Cpp/1-getting-started/1-1-1-HelloWindow/Input/Mouse.cpp:30-46 | PRESS adds to pressed and down. RELEASE adds to up and removes from down. Other actions change nothing. |
| `InputTrackers.Mouse.HandleMouseMove` | src/Cpp/1-getting-started/1-1-1-HelloWindow/Input/Mouse.cpp:48-57 | The cursor moves to (x, y) and the delta is the step from where it was. |
| `InputTrackers.Mouse.HideCursor` | src/Cpp/1-getting-started/1-1-1-HelloWindow/Input/Mouse.cpp:59-64 | The cursor is captured. |
| `InputTrackers.Mouse.ShowCursor` | src/Cpp/1-getting-started/1-1-1-HelloWindow/Input/Mouse.cpp:81-86 | The cursor is released. |
| `InputTrackers.Mouse.Update` | src/Cpp/1-getting-started/1-1-1-HelloWindow/Input/Mouse.cpp:88-104 | The sets are emptied and the delta zeroed. A captured cursor goes back to the centre; otherwise it stays. |
| `InputTrackers.Input.constructor` | src/Cpp/1-getting-started/1-HelloWindow/Input/Input.cpp:5-12 | A fresh keyboard and mouse with nothing held and the cursor free. |
| `InputTrackers.Input.HandleKeyPressed` | src/Cpp/1-getting-started/1-HelloWindow/Input/Input.cpp:32-38 | One event goes to both trackers, so a PRESS is a pressed key and a pressed button with the same code. Other codes keep their state. The same holds for 11-HelloTriangle/Input/Input.cpp:33-39. |
| `InputTrackers.Input.HandleMouseMove` | src/Cpp/1-getting-started/1-HelloWindow/Input/Input.cpp:40-47 | Only the mouse moves; the keyboard is unchanged. |
| `InputTrackers.Input.Update` | src/Cpp/1-getting-started/1-HelloWindow/Input/Input.cpp:49-55 | Afterwards no key or button is down or pressed, the delta is zero, and the cursor is reset only when captured. |
| `CameraApplication.Application.constructor` | src/Cpp/1-getting-started/1-3-6-Camera/Application.hpp:78-85 | Size 0 x 0, all 512 keys and buttons up, cursor free. |
| `CameraApplication.Application.OnResize` | src/Cpp/1-getting-started/1-3-6-Camera/Application.cpp:54-60 | The width and height getters return the new size. |
| `CameraApplication.Application.OnKey` | src/Cpp/1-getting-started/1-3-6-Camera/Application.cpp:62-74 | The key's flag follows PRESS, RELEASE or stays. Every other flag is unchanged. |
| `CameraApplication.Application.OnMouseButton` | src/Cpp/1-getting-started/1-3-6-Camera/Application.cpp:157-171 | The same rule for the button flags. |
| `CameraApplication.Application.OnMouseMove` | src/Cpp/1-getting-started/1-3-6-Camera/Application.cpp:173-182 | The cursor moves to (x, y) and the delta is the step taken. |
| `CameraApplication.Application.UpdateInput` | src/Cpp/1-getting-started/1-3-6-Camera/Application.cpp:184-197 | Only the delta is reset, plus the cursor when captured. Key flags persist. |
| `CameraApplication.Application.IsKeyPressed` | src/Cpp/1-getting-started/1-3-6-Camera/Application.cpp:219-222 | Pressed exactly while down. |
| `CameraApplication.Application.IsKeyUp` | src/Cpp/1-getting-started/1-3-6-Camera/Application.cpp:224-227 | Up exactly when not down. |
| `CameraApplication.Application.IsButtonPressed` | src/Cpp/1-getting-started/1-3-6-Camera/Application.cpp:234-237 | Pressed exactly while down. |
| `CameraApplication.Application.IsButtonUp` | src/Cpp/1-getting-started/1-3-6-Camera/Application.cpp:239-242 | Up exactly when not down. |
| `CameraApplication.Application.Run` | src/Cpp/1-getting-started/1-3-6-Camera/Application.cpp:94-116 | Load runs exactly when Initialize succeeded, and frames run only when both did, each resetting input around the window centre. |
| `CameraApplication.ApplicationWithInput.constructor` | src/Cpp/1-getting-started/1-3-6-Camera/ApplicationWithInput.hpp:71-73 | All keys and buttons up and the cursor not captured. |
| `CameraApplication.ApplicationWithInput.Initialize` | src/Cpp/1-getting-started/1-3-6-Camera/ApplicationWithInput.cpp:17-24 | Reports success whatever the base class returned. |
| `CameraApplication.ApplicationWithInput.OnKey` | src/Cpp/1-getting-started/1-3-6-Camera/ApplicationWithInput.cpp:26-38 | PRESS sets, RELEASE clears, other actions keep the key's flag. Every other flag is unchanged. |
| `CameraApplication.ApplicationWithInput.OnMouseButton` | src/Cpp/1-getting-started/1-3-6-Camera/ApplicationWithInput.cpp:89-103 | The same rule for buttons. |
| `CameraApplication.ApplicationWithInput.OnMouseMove` | src/Cpp/1-getting-started/1-3-6-Camera/ApplicationWithInput.cpp:105-114 | The cursor moves to (x, y) and the delta is the step taken. |
| `CameraApplication.ApplicationWithInput.UpdateInput` | src/Cpp/1-getting-started/1-3-6-Camera/ApplicationWithInput.cpp:116-129 | The delta is zeroed and the cursor is reset only when captured. |
| `CameraApplication.ApplicationWithInput.Update` | src/Cpp/1-getting-started/1-3-6-Camera/ApplicationWithInput.cpp:54-57 | Resets input around (0, 0) and never touches the flags. |
| `CameraApplication.ApplicationWithInput.IsKeyPressed` | src/Cpp/1-getting-started/1-3-6-Camera/ApplicationWithInput.cpp:136-139 | Pressed exactly while down. |
| `CameraApplication.ApplicationWithInput.IsKeyUp` | src/Cpp/1-getting-started/1-3-6-Camera/ApplicationWithInput.cpp:141-144 | Up exactly when not down. |
| `CameraApplication.ApplicationWithInput.IsButtonPressed` | src/Cpp/1-getting-started/1-3-6-Camera/ApplicationWithInput.cpp:151-154 | Pressed exactly while down. |
| `CameraApplication.ApplicationWithInput.IsButtonUp` | src/Cpp/1-getting-started/1-3-6-Camera/ApplicationWithInput.cpp:156-159 | Up exactly when not down. |
| `CameraApplication.KeyHeldAcrossFrames` | src/Cpp/1-getting-started/1-3-6-Camera/ApplicationWithInput.cpp:54-57 | A key pressed before two frame updates is still down and pressed, and an uncaptured cursor stays put. |

## Left out

- Device, swap-chain, render-target and depth-buffer creation, `Present`, and Dear ImGui are not modelled. They are sequences of foreign calls; the model takes the immediate context and the device as given values.
- Shader compilation, input-layout creation and every other device factory are oracles (`Device` fields). Their outputs are opaque handles.
- Texture decoding (WIC, FreeImage, DDS loading) is not modelled and Assimp import is an oracle. The decoded bitmap's size and bit count, the DDS view and the imported scene enter as parameters.
- GLFW is outside the model: window creation, callback registration, event polling and cursor mode. `HideCursor` and `ShowCursor` only flip the captured flag.
- A created buffer (`GpuBuffer`) carries its handle and description but not the initial data (`pSysMem`) passed to `CreateBuffer`. No contract ties the loaded vertices and indices to the buffer's contents, only to its byte width. This affects ModelFactories.ModelFactory.LoadModel, ModelsApplication.LoadingMeshesApplication.LoadModel and LoadingMeshesChapter.LoadingMeshesApplication.LoadModel. The first returns the vertex and index lists it hands over as out-parameters. The other two state only the counts and the buffer descriptions.
- The device's factory functions are deterministic per descriptor: two calls with equal descriptors give the same handle or the same failure. This covers `createBuffer`, the shader, layout, sampler, state, texture and view factories. The model never relies on two objects from equal descriptors being distinct. Where the modelled code makes several objects from one descriptor, the models chapter's Load with its three constant buffers, the three outcomes come in as an independent `ConstantBufferCreations` value instead. The mesh chapter's Render takes its three constant buffers as separate members.
- Camera.cpp and all DirectXMath matrices are left out as floating-point maths. An `UpdateSubresource` upload carries its data as an opaque number.
- Position scaling by 1, 10 or 100 in the loaders is kept symbolic (`ScaledPosition`), with no float division.
- Floats are mathematical reals, so the mouse delta is an exact subtraction and rounding is not modelled.
- COM `Release`, debug object naming, info-queue filters and leak reporting are not modelled: housekeeping with no behaviour to state.
- The cube index table of 3DRenderingApplication.cpp is not modelled; it is the same shape as HelloFroge's, whose table is.
- HelloFroge's `LoadTexture` is modelled only through its size arithmetic. The WIC copy into the buffer is foreign.
- CameraApplication.Application.Run: event polling and the derived class's `Update` and `Render` hooks are not modelled. The outcomes of `Initialize` and `Load` and the number of frames before the window closes are parameters.
- CameraApplication.ApplicationWithInput.Initialize: the base `Application::Initialize` result is a parameter, since the window set-up it does is GLFW.
- PipelineFactories.PipelineFactory.CreatePipeline requires the vertex shader to compile. The source passes a null blob on to input-layout creation otherwise.
- HelloTriangleFactory.PipelineFactory.CreatePipeline and ShaderCollections.ShaderCollection.CreateShaderCollection carry the same precondition.
- HelloTriangleFactory.GetLayoutByteSize: the switch's fallback 0 cannot be reached with that chapter's one-value enumeration, so it is not modelled.
- ShaderCollections.GetLayoutByteSize: the same holds for its unreachable fallback 0.
- LoadingMeshesContext, HelloTriangleContext and NamingThingsContext leave fields uninitialised in their constructors. These are modelled as `Option` values that start as `None`, and the methods that read them require `Some`: reading an indeterminate value is undefined behaviour.
- The `Clear` methods require four clear-colour components, the `float[4]` the source passes.
- The Camera chapter's key and button handlers require a code in 0..511, since the `std::array<bool, 512>` is indexed unchecked.
- Setting3D.TextureDescFor: the row pitch is stated only when (bits/8)·width fits 32 bits. Beyond that the source's UINT product wraps, and the model wraps it too without stating the value.
- ResourceDescriptors.HashFields, ResourceDescriptors.HashMatchesEqual, TexturingPipelines.HashMatchesEqual and TexturingPipelines.SameSlotDistinctTypes assume that `std::hash<uint64_t>` is the identity and `size_t` is 64 bits wide, as in libstdc++ and libc++. MSVC's library hashes with FNV-1a, under which equal keys still hash alike but unequal keys may collide. A 32-bit `size_t` drops the shifted slot. Lookup is unaffected: the table is keyed by `equal_to` classes (`KeyOfMatchesEqual`, `Assign`).
- HelloFroge.GetBitsPerPixel: the debug `assert` against UNKNOWN is not modelled. The function takes any format, as a release build does, and a format missing from the table gives 0.
- The `SetVertexBuffer` methods of DepthBufferContext, RasterizerStateContext, LoadingMeshesContext, HelloTriangleContext and NamingThingsContext require a nonzero vertex size in the active pipeline. The source divides the byte width by it unchecked.
- ModelsApplication.LoadingMeshesApplication.Render and DrawModel require `ModelReady`, whose index count must be what the index buffer's byte width gives back. This excludes models of 2³⁰ or more indices, whose 32-bit byte width wraps.
- ModelsApplication.LoadingMeshesApplication.constructor models the state left by `Initialize` rather than its GLFW and device set-up.

## Findings

| source | as written | input that shows it | evidently intended | confidence | as-written member | corrected member |
|---|---|---|---|---|---|---|
| src/Cpp/1-getting-started/2-HelloFroge/Main.cpp:412-418 | `GetBitsPerPixel` returns `std::int8_t`, but the table's entry for R32G32B32A32_FLOAT is 128, which becomes -128 | a 1x1 image in GUID_WICPixelFormat128bppRGBAFloat: `width * bpp` is 2³²-128 in UINT, so `bytesPerRow` is 536870896 | 128 bits per pixel and a 16-byte row | not executed | `HelloFroge.WrappedBitsOversizeTheRow` | `HelloFroge.TexturePixelBuffer` |
