/**
 * The first mesh-loading chapter's application, which drives the immediate
 * context itself rather than through a DeviceContext: LoadModel fills the
 * model buffers from the first imported mesh with positions kept as they are,
 * and Render issues its calls one by one and draws the model's index count.
 */
module LoadingMeshesChapter {
  import opened Wrappers
  import opened Ints
  import opened D3D11
  import opened Meshes
  import opened Pipelines
  import opened DeviceContextCommon
  import MF = ModelFactories

  /** This loader divides positions by 1, so they stay as imported. */
  const POSITION_DIVISOR: real := 1.0
  const CLEAR_COLOR: seq<real> := [0.1, 0.1, 0.1, 1.0]

  /** Render's input-assembler calls: the layout, a vertex buffer at the 32-byte stride, a 32-bit index buffer, triangle lists. */
  function InputAssemblerCalls(layout: Ptr, vertices: Ptr, indices: Ptr): seq<Call>
  {
    [IASetInputLayout(layout), IASetVertexBuffers(0, vertices, VERTEX_SIZE, 0),
     IASetIndexBuffer(indices, R32_UINT, 0), IASetPrimitiveTopology(TriangleList)]
  }

  /** Those four calls issued in order: the input assembler holds exactly what they name. */
  function SetInputAssembler(ctx: Context, layout: Ptr, vertices: Ptr, indices: Ptr): (r: Context)
    ensures r.bindings == ctx.bindings.(
      inputLayout := layout, topology := TriangleList,
      vertexBuffers := ctx.bindings.vertexBuffers[0 := VertexBinding(vertices, VERTEX_SIZE, 0)],
      indexBuffer := Some(IndexBinding(indices, R32_UINT, 0)))
    ensures r.trace == ctx.trace + InputAssemblerCalls(layout, vertices, indices)
  {
    var c1 := Issue(ctx, IASetInputLayout(layout));
    var c2 := Issue(c1, IASetVertexBuffers(0, vertices, VERTEX_SIZE, 0));
    var c3 := Issue(c2, IASetIndexBuffer(indices, R32_UINT, 0));
    Issue(c3, IASetPrimitiveTopology(TriangleList))
  }

  /** Render's vertex-stage calls: the vertex shader, the constant buffers from slot 0, and one viewport. */
  function VertexStageCalls(shader: Ptr, constantBuffers: seq<Ptr>, viewport: Viewport): seq<Call>
  {
    [VSSetShader(shader), VSSetConstantBuffers(0, constantBuffers), RSSetViewports([viewport])]
  }

  /** Those three calls issued in order. */
  function SetVertexStage(ctx: Context, shader: Ptr, constantBuffers: seq<Ptr>, viewport: Viewport): (r: Context)
    ensures r.bindings == ctx.bindings.(
      vertexShader := shader, slots := SetSlots(ctx.bindings.slots, VsConstantBuffers, 0, constantBuffers),
      viewports := [viewport])
    ensures r.trace == ctx.trace + VertexStageCalls(shader, constantBuffers, viewport)
  {
    var c1 := Issue(ctx, VSSetShader(shader));
    var c2 := Issue(c1, VSSetConstantBuffers(0, constantBuffers));
    Issue(c2, RSSetViewports([viewport]))
  }

  /** Render's pixel-stage and output calls: the pixel shader, one view and one sampler at slot 0, and the target without depth. */
  function PixelStageCalls(shader: Ptr, view: Ptr, sampler: Ptr, renderTarget: Ptr): seq<Call>
  {
    [PSSetShader(shader), PSSetShaderResources(0, [view]), PSSetSamplers(0, [sampler]), OMSetRenderTargets([renderTarget], None)]
  }

  /** Those four calls issued in order. */
  function SetPixelStage(ctx: Context, shader: Ptr, view: Ptr, sampler: Ptr, renderTarget: Ptr): (r: Context)
    ensures r.bindings == ctx.bindings.(
      pixelShader := shader,
      slots := SetSlots(SetSlots(ctx.bindings.slots, PsShaderResources, 0, [view]), PsSamplers, 0, [sampler]),
      renderTargets := [renderTarget], depthStencilView := None)
    ensures r.trace == ctx.trace + PixelStageCalls(shader, view, sampler, renderTarget)
  {
    var c1 := Issue(ctx, PSSetShader(shader));
    var c2 := Issue(c1, PSSetShaderResources(0, [view]));
    var c3 := Issue(c2, PSSetSamplers(0, [sampler]));
    Issue(c3, OMSetRenderTargets([renderTarget], None))
  }

  class LoadingMeshesApplication {
    const device: Device
    var context: Context
    var renderTarget: Ptr
    var vertexLayout: Ptr
    var vertexShader: Ptr
    var pixelShader: Ptr
    var textureSrv: Ptr
    var linearSamplerState: Ptr
    var perApplication: Ptr
    var perFrame: Ptr
    var perObject: Ptr
    var modelVertices: Option<GpuBuffer>
    var modelIndices: Option<GpuBuffer>
    var modelVertexCount: U32
    var modelIndexCount: U32
    var windowWidth: int
    var windowHeight: int

    /** The member initialisers: every COM pointer null and both model counts 0. */
    constructor (device: Device, context: Context, windowWidth: int, windowHeight: int)
      ensures this.device == device && this.context == context
      ensures renderTarget == vertexLayout == vertexShader == pixelShader == None
      ensures textureSrv == linearSamplerState == perApplication == perFrame == perObject == None
      ensures modelVertices == None && modelIndices == None && modelVertexCount == 0 && modelIndexCount == 0
      ensures this.windowWidth == windowWidth && this.windowHeight == windowHeight
    {
      this.device := device;
      this.context := context;
      renderTarget, vertexLayout, vertexShader, pixelShader := None, None, None, None;
      textureSrv, linearSamplerState := None, None;
      perApplication, perFrame, perObject := None, None, None;
      modelVertices, modelIndices := None, None;
      modelVertexCount, modelIndexCount := 0, 0;
      this.windowWidth, this.windowHeight := windowWidth, windowHeight;
    }

    /** The model members, as the out-parameters of the shared LoadModel would hold them. */
    function Model(): MF.ModelOutputs
      reads this`modelVertices, this`modelVertexCount, this`modelIndices, this`modelIndexCount
    {
      MF.ModelOutputs(modelVertices, modelVertexCount, modelIndices, modelIndexCount)
    }

    /**
     * LoadModel: the model members and the result follow the shared LoadModel
     * outcome, and a successful load whose byte widths fit in 32 bits leaves
     * buffers that give back the model's counts at Render's stride.
     */
    method LoadModel(filePath: string, readFile: string -> Option<Scene>) returns (ok: bool)
      modifies this`modelVertices, this`modelIndices, this`modelVertexCount, this`modelIndexCount
      ensures (ok, Model()) == MF.LoadOutcome(device, readFile(filePath), old(Model()))
      ensures ok ==> modelVertices.Some? && modelIndices.Some?
      ensures ok && MF.ModelFits(readFile(filePath)) ==>
        && DrawVertexCount(modelVertices.value.desc.byteWidth, VERTEX_SIZE) == modelVertexCount
        && DrawIndexCount(modelIndices.value.desc.byteWidth) == modelIndexCount == IndexTotal(FirstMesh(readFile(filePath)).value.faces)
    {
      ghost var before := Model();
      MF.LoadOutcomeSucceeds(device, readFile(filePath), before);
      var found := FirstMesh(readFile(filePath));
      if found.Failure? {
        return false;
      }
      var mesh := found.value;
      var vertices := AssembleVertices(mesh, POSITION_DIVISOR);
      modelVertexCount := ToU32(|vertices|);
      modelVertices := CreateBuffer(device, VertexBufferDesc(|vertices|));
      if modelVertices.None? {
        return false;
      }
      var indices := CollectIndices(mesh.faces);
      modelIndexCount := ToU32(|indices|);
      modelIndices := CreateBuffer(device, IndexBufferDesc(|indices|));
      ok := modelIndices.Some?;
      if ok && MF.ModelFits(readFile(filePath)) {
        MF.LoadedVerticesGiveBackCount(device, readFile(filePath), before, POSITION_DIVISOR);
        MF.LoadedIndicesGiveBackCount(device, readFile(filePath), before);
      }
    }

    /** The window-sized viewport Render builds each frame. */
    function WindowViewport(): Viewport
      reads this`windowWidth, this`windowHeight
    {
      FullDepthViewport(0.0, 0.0, windowWidth as real, windowHeight as real)
    }

    /** Every call Render makes on the context, in order; the swap chain's Present is not a context call. */
    function RenderCalls(): seq<Call>
      reads this
    {
      [ClearRenderTargetView(renderTarget, CLEAR_COLOR)]
        + InputAssemblerCalls(vertexLayout, AsPtr(modelVertices), AsPtr(modelIndices))
        + VertexStageCalls(vertexShader, [perApplication, perFrame, perObject], WindowViewport())
        + PixelStageCalls(pixelShader, textureSrv, linearSamplerState, renderTarget)
        + [DrawIndexed(modelIndexCount, 0, 0)]
    }

    /**
     * Render: clear the target, bind the model's buffers at the 32-byte
     * stride with 32-bit indices, the shaders, constant buffers, texture,
     * sampler, viewport and target, then draw the model's index count.
     */
    method Render()
      modifies this`context
      ensures context.trace == old(context.trace) + RenderCalls()
      ensures context.bindings.vertexBuffers == old(context.bindings).vertexBuffers[0 := VertexBinding(AsPtr(modelVertices), VERTEX_SIZE, 0)]
      ensures context.bindings.indexBuffer == Some(IndexBinding(AsPtr(modelIndices), R32_UINT, 0))
      ensures context.bindings.inputLayout == vertexLayout && context.bindings.topology == TriangleList
      ensures context.bindings.vertexShader == vertexShader && context.bindings.pixelShader == pixelShader
      ensures context.bindings.slots
           == SetSlots(SetSlots(SetSlots(old(context.bindings).slots, VsConstantBuffers, 0, [perApplication, perFrame, perObject]),
                                PsShaderResources, 0, [textureSrv]), PsSamplers, 0, [linearSamplerState])
      ensures context.bindings.viewports == [WindowViewport()]
      ensures context.bindings.renderTargets == [renderTarget] && context.bindings.depthStencilView == None
      ensures context.bindings.depthStencilState == old(context.bindings).depthStencilState
      ensures context.bindings.rasterizerState == old(context.bindings).rasterizerState
    {
      var c := Issue(context, ClearRenderTargetView(renderTarget, CLEAR_COLOR));
      c := SetInputAssembler(c, vertexLayout, AsPtr(modelVertices), AsPtr(modelIndices));
      c := SetVertexStage(c, vertexShader, [perApplication, perFrame, perObject], WindowViewport());
      c := SetPixelStage(c, pixelShader, textureSrv, linearSamplerState, renderTarget);
      c := Issue(c, DrawIndexed(modelIndexCount, 0, 0));
      TraceSteps(old(context.trace), ClearRenderTargetView(renderTarget, CLEAR_COLOR),
                 InputAssemblerCalls(vertexLayout, AsPtr(modelVertices), AsPtr(modelIndices)),
                 VertexStageCalls(vertexShader, [perApplication, perFrame, perObject], WindowViewport()),
                 PixelStageCalls(pixelShader, textureSrv, linearSamplerState, renderTarget), DrawIndexed(modelIndexCount, 0, 0));
      context := c;
    }
  }

  /** Calls issued in groups extend the trace by the groups, in order. */
  lemma TraceSteps(trace: seq<Call>, first: Call, a: seq<Call>, b: seq<Call>, c: seq<Call>, last: Call)
    ensures trace + [first] + a + b + c + [last] == trace + ([first] + a + b + c + [last])
  {
  }

  /**
   * Render draws as many indices and vertices as the model has: after a
   * successful LoadModel whose byte widths fit, the index count it issues is
   * the number of indices over all faces, and the vertex count the bound
   * buffer's width gives at the bound stride is the number of mesh vertices.
   */
  lemma RenderDrawsTheModel(device: Device, scene: Option<Scene>, before: MF.ModelOutputs)
    requires MF.ModelFits(scene)
    ensures var (ok, model) := MF.LoadOutcome(device, scene, before);
      ok ==>
        && DrawIndexCount(model.indexBuffer.value.desc.byteWidth) == model.indexCount == IndexTotal(FirstMesh(scene).value.faces)
        && DrawVertexCount(model.vertexBuffer.value.desc.byteWidth, VERTEX_SIZE) == model.vertexCount == |FirstMesh(scene).value.vertices|
  {
    MF.LoadOutcomeSucceeds(device, scene, before);
    MF.LoadedIndicesGiveBackCount(device, scene, before);
    MF.LoadedVerticesGiveBackCount(device, scene, before, POSITION_DIVISOR);
    if FirstMesh(scene).Success? {
      assert |Vertices(FirstMesh(scene).value, POSITION_DIVISOR)| == |FirstMesh(scene).value.vertices|;
    }
  }
}
