/**
 * The models chapter's application (LoadingMeshesApplication of 1-3-5):
 * Load builds the pipeline and fills its resource table step by step,
 * LoadModel turns the first mesh of a model file into buffers, and Render
 * draws it through the mesh-loading DeviceContext.
 */
module ModelsApplication {
  import opened Wrappers
  import opened Ints
  import opened D3D11
  import opened ResourceDescriptors
  import opened Pipelines
  import opened VertexLayouts
  import opened Shaders
  import opened PipelineFactories
  import opened Meshes
  import opened DeviceContextCommon
  import opened ResourceRouting
  import LoadingMeshesContext
  import MF = ModelFactories

  const VERTEX_SHADER_PATH: string := "Assets/Shaders/Main.vs.hlsl"
  const PIXEL_SHADER_PATH: string := "Assets/Shaders/Main.ps.hlsl"
  const TEXTURE_PATH: string := "Assets/Textures/T_Good_Froge.dds"
  const MODEL_PATH: string := "Assets/Models/SM_Good_Froge.fbx"
  /** This loader divides positions by 100. */
  const POSITION_DIVISOR: real := 100.0

  const PIPELINE_DESCRIPTOR: PipelineDescriptor := PipelineDescriptor(VERTEX_SHADER_PATH, PIXEL_SHADER_PATH, PositionColorUv)
  /** Trilinear-in-plane, point-mip, wrapping sampler. */
  const LINEAR_SAMPLER: SamplerDesc := SamplerDesc(MinMagLinearMipPoint, Wrap, Wrap, Wrap)
  /** One 4x4 float matrix per constant buffer, default usage. */
  const CONSTANT_BUFFER_DESC: BufferDesc := BufferDesc(64, Default, ConstantBufferBind)
  const CLEAR_COLOR: seq<real> := [0.1, 0.1, 0.1, 1.0]

  /**
   * What the device answers to Load's three CreateBuffer calls with
   * CONSTANT_BUFFER_DESC, in call order. Each call creates its own COM object
   * and may fail on its own, so the three outcomes are independent.
   */
  datatype ConstantBufferCreations = ConstantBufferCreations(perApplication: Ptr, perFrame: Ptr, perObject: Ptr)
  {
    predicate AllCreated() {
      perApplication.Some? && perFrame.Some? && perObject.Some?
    }
  }

  /** Whether CreatePipeline succeeds for this application's descriptor (the input layout is created). */
  predicate PipelineCreated(device: Device)
    requires VertexShaderCompiles(device, VERTEX_SHADER_PATH)
  {
    var d := PIPELINE_DESCRIPTOR;
    device.createInputLayout(Layout(d.vertexType), CreateVertexShader(device, d.vertexFilePath).blob.value).Some?
  }

  /** The steps of Load in order; a failing step ends Load. */
  datatype LoadStep =
    | CreatingPipeline | LoadingTexture | CreatingSampler | LoadingModel
    | CreatingPerApplicationBuffer | CreatingPerFrameBuffer | CreatingPerObjectBuffer
    | Done

  /** The steps at which Load stops with the texture and sampler bound and nothing more. */
  predicate StopsAfterSampler(step: LoadStep)
  {
    step.LoadingModel? || step.CreatingPerApplicationBuffer? || step.CreatingPerFrameBuffer? || step.CreatingPerObjectBuffer?
  }

  /** The step at which Load stops, or Done when every step succeeds. */
  function StopStep(device: Device, texture: Ptr, scene: Option<Scene>, creations: ConstantBufferCreations): (step: LoadStep)
    requires VertexShaderCompiles(device, VERTEX_SHADER_PATH)
    ensures step == Done <==>
      && PipelineCreated(device) && texture.Some? && device.createSamplerState(LINEAR_SAMPLER).Some?
      && MF.ModelLoads(device, scene) && creations.AllCreated()
    ensures step == CreatingPipeline <==> !PipelineCreated(device)
  {
    if !PipelineCreated(device) then CreatingPipeline else ResourceStep(device, texture, scene, creations)
  }

  /** The step at which Load stops once its pipeline exists. */
  function ResourceStep(device: Device, texture: Ptr, scene: Option<Scene>, creations: ConstantBufferCreations): (step: LoadStep)
    ensures step != CreatingPipeline
    ensures step == LoadingTexture <==> texture.None?
    ensures step == CreatingSampler <==> texture.Some? && device.createSamplerState(LINEAR_SAMPLER).None?
    ensures step == LoadingModel <==> texture.Some? && device.createSamplerState(LINEAR_SAMPLER).Some? && !MF.ModelLoads(device, scene)
  {
    if texture.None? then LoadingTexture
    else if device.createSamplerState(LINEAR_SAMPLER).None? then CreatingSampler
    else if !MF.ModelLoads(device, scene) then LoadingModel
    else if creations.perApplication.None? then CreatingPerApplicationBuffer
    else if creations.perFrame.None? then CreatingPerFrameBuffer
    else if creations.perObject.None? then CreatingPerObjectBuffer
    else Done
  }

  /**
   * The three constant-buffer failures are distinct stopping points: once the
   * earlier steps succeed, Load stops at the first of the three creations that
   * fails, whichever the other two answer.
   */
  lemma {:induction false} ConstantBufferFailuresAreSeparate(device: Device, texture: Ptr, scene: Option<Scene>, creations: ConstantBufferCreations)
    requires texture.Some? && device.createSamplerState(LINEAR_SAMPLER).Some? && MF.ModelLoads(device, scene)
    ensures creations.perApplication.None? ==> ResourceStep(device, texture, scene, creations) == CreatingPerApplicationBuffer
    ensures creations.perApplication.Some? && creations.perFrame.None? ==>
      ResourceStep(device, texture, scene, creations) == CreatingPerFrameBuffer
    ensures creations.perApplication.Some? && creations.perFrame.Some? && creations.perObject.None? ==>
      ResourceStep(device, texture, scene, creations) == CreatingPerObjectBuffer
  {
    if creations.perApplication.None? {
      assert ResourceStep(device, texture, scene, creations) == CreatingPerApplicationBuffer;
    } else if creations.perFrame.None? {
      assert ResourceStep(device, texture, scene, creations) == CreatingPerFrameBuffer;
    }
  }

  /** The table after texture binding. */
  function TextureBound(texture: Ptr): ResourceTable
  {
    Assign(map[], TextureDescriptor(0), texture)
  }

  /** The table after sampler binding. */
  function SamplerBound(texture: Ptr, sampler: Ptr): ResourceTable
  {
    Assign(TextureBound(texture), SamplerDescriptor(0), sampler)
  }

  /** The table a complete Load leaves: texture and sampler in slot 0, the three matrix buffers in vertex-stage slots 0, 1, 2. */
  function LoadedResources(texture: Ptr, sampler: Ptr, perApplication: Ptr, perFrame: Ptr, perObject: Ptr): ResourceTable
  {
    ConstantBuffersBound(SamplerBound(texture, sampler), perApplication, perFrame, perObject)
  }

  /** The table after the three matrix buffers are bound to vertex-stage slots 0, 1, 2. */
  function ConstantBuffersBound(table: ResourceTable, perApplication: Ptr, perFrame: Ptr, perObject: Ptr): ResourceTable
  {
    Assign(Assign(Assign(table, VertexStageBufferDescriptor(0), perApplication),
                  VertexStageBufferDescriptor(1), perFrame),
           VertexStageBufferDescriptor(2), perObject)
  }

  /** Each failing step leaves the entries of the steps before it and no more. */
  lemma TableGrowsWithSteps(texture: Ptr, sampler: Ptr)
    ensures TextureBound(texture).Keys == {SlotKey(Texture, 0)}
    ensures SamplerBound(texture, sampler).Keys == {SlotKey(Texture, 0), SlotKey(Sampler, 0)}
    ensures SamplerBound(texture, sampler)[SlotKey(Texture, 0)] == Entry(VertexStage, texture)
    ensures SamplerBound(texture, sampler)[SlotKey(Sampler, 0)] == Entry(VertexStage, sampler)
  {
  }

  /** Exactly five entries, each holding what was bound to it, all for the vertex stage. */
  lemma LoadedResourcesHoldFiveEntries(texture: Ptr, sampler: Ptr, perApplication: Ptr, perFrame: Ptr, perObject: Ptr)
    ensures LoadedResources(texture, sampler, perApplication, perFrame, perObject)
         == map[SlotKey(Texture, 0) := Entry(VertexStage, texture), SlotKey(Sampler, 0) := Entry(VertexStage, sampler),
                SlotKey(Buffer, 0) := Entry(VertexStage, perApplication), SlotKey(Buffer, 1) := Entry(VertexStage, perFrame),
                SlotKey(Buffer, 2) := Entry(VertexStage, perObject)]
  {
    var m0 := map[SlotKey(Texture, 0) := Entry(VertexStage, texture)];
    AssignNewKey(map[], TextureDescriptor(0), texture);
    assert TextureBound(texture) == m0;
    var m1 := m0[SlotKey(Sampler, 0) := Entry(VertexStage, sampler)];
    AssignNewKey(m0, SamplerDescriptor(0), sampler);
    assert SamplerBound(texture, sampler) == m1;
    var m2 := m1[SlotKey(Buffer, 0) := Entry(VertexStage, perApplication)];
    AssignNewKey(m1, VertexStageBufferDescriptor(0), perApplication);
    var m3 := m2[SlotKey(Buffer, 1) := Entry(VertexStage, perFrame)];
    AssignNewKey(m2, VertexStageBufferDescriptor(1), perFrame);
    AssignNewKey(m3, VertexStageBufferDescriptor(2), perObject);
  }

  /** Calls issued one after another extend the trace by those calls, in order. */
  lemma AppendThree(trace: seq<Call>, a: Call, b: Call, c: Call)
    ensures trace + [a] + [b] + [c] == trace + [a, b, c]
  {
  }

  /** The draw half of Render: the model's vertex buffer with the 32-byte stride, its 32-bit index buffer, and one indexed draw of every index. */
  function ModelDrawCalls(vertices: GpuBuffer, indices: GpuBuffer, indexCount: U32): seq<Call>
  {
    [VertexBufferCall(vertices, VERTEX_SIZE, 0), IndexBufferCall(indices, 0), D3D11.DrawIndexed(indexCount, 0, 0)]
  }

  /** What Render relies on besides the pipeline: both model buffers, and an index buffer sized for the index count. */
  predicate ModelReady(vertices: Option<GpuBuffer>, indices: Option<GpuBuffer>, indexCount: U32)
  {
    vertices.Some? && indices.Some? && DrawIndexCount(indices.value.desc.byteWidth) == indexCount
  }

  class LoadingMeshesApplication {
    const device: Device
    const pipelineFactory: PipelineFactory
    const deviceContext: LoadingMeshesContext.DeviceContext
    var pipeline: Pipeline?
    var textureSrv: Ptr
    var linearSamplerState: Ptr
    /** PerApplication, PerFrame, PerObject */
    const constantBuffers: array<Ptr>
    var modelVertices: Option<GpuBuffer>
    var modelIndices: Option<GpuBuffer>
    var modelVertexCount: U32
    var modelIndexCount: U32
    var windowWidth: int
    var windowHeight: int

    /** The state Initialize leaves: the device, its factories and context, nothing loaded. */
    constructor (device: Device, deviceContext: LoadingMeshesContext.DeviceContext, windowWidth: int, windowHeight: int)
      ensures this.device == device && this.deviceContext == deviceContext
      ensures pipelineFactory.device == device && pipelineFactory.Valid() && fresh(pipelineFactory)
      ensures pipeline == null && constantBuffers.Length == 3 && fresh(constantBuffers)
      ensures modelVertices == None && modelIndices == None && modelVertexCount == 0 && modelIndexCount == 0
      ensures this.windowWidth == windowWidth && this.windowHeight == windowHeight
    {
      this.device := device;
      this.deviceContext := deviceContext;
      pipelineFactory := new PipelineFactory(device);
      pipeline := null;
      textureSrv, linearSamplerState := None, None;
      constantBuffers := new Ptr[3](_ => None);
      modelVertices, modelIndices := None, None;
      modelVertexCount, modelIndexCount := 0, 0;
      this.windowWidth, this.windowHeight := windowWidth, windowHeight;
    }

    /** The model members, as the out-parameters of the shared LoadModel would hold them. */
    function Model(): MF.ModelOutputs
      reads this`modelVertices, this`modelVertexCount, this`modelIndices, this`modelIndexCount
    {
      MF.ModelOutputs(modelVertices, modelVertexCount, modelIndices, modelIndexCount)
    }

    /**
     * LoadModel: the model members and the result follow the shared
     * LoadModel outcome, with positions divided by 100.
     */
    method LoadModel(filePath: string, readFile: string -> Option<Scene>) returns (ok: bool)
      modifies this`modelVertices, this`modelIndices, this`modelVertexCount, this`modelIndexCount
      ensures (ok, Model()) == MF.LoadOutcome(device, readFile(filePath), old(Model()))
    {
      var found := FirstMesh(readFile(filePath));
      if found.Failure? {
        return false;
      }
      var mesh := found.value;
      var vertices := AssembleVertices(mesh, POSITION_DIVISOR);
      modelVertexCount := ToU32(|vertices|);
      modelVertices := CreateBuffer(device, VertexBufferDesc(|vertices|));
      if modelVertices.None? {
        return false;
      }
      var indices := CollectIndices(mesh.faces);
      modelIndexCount := ToU32(|indices|);
      modelIndices := CreateBuffer(device, IndexBufferDesc(|indices|));
      ok := modelIndices.Some?;
    }

    /**
     * The three constant-buffer creations of Load, each into its own array
     * element and each ending Load at its failure; the elements after a failed
     * creation keep what they held.
     */
    method CreateConstantBuffers(creations: ConstantBufferCreations) returns (ok: bool)
      requires constantBuffers.Length == 3
      modifies constantBuffers
      ensures ok <==> creations.AllCreated()
      ensures constantBuffers[0] == creations.perApplication
      ensures constantBuffers[1] == if creations.perApplication.Some? then creations.perFrame else old(constantBuffers[1])
      ensures constantBuffers[2] == if creations.perApplication.Some? && creations.perFrame.Some? then creations.perObject else old(constantBuffers[2])
    {
      constantBuffers[0] := creations.perApplication;
      if constantBuffers[0].None? {
        return false;
      }
      constantBuffers[1] := creations.perFrame;
      if constantBuffers[1].None? {
        return false;
      }
      constantBuffers[2] := creations.perObject;
      ok := constantBuffers[2].Some?;
    }

    /** The end of Load: three constant buffers bound to vertex-stage slots 0, 1, 2 of p and the projection uploaded to the first. */
    method CreateAndBindConstantBuffers(p: Pipeline, creations: ConstantBufferCreations, projection: nat) returns (ok: bool)
      requires p.Valid()
      requires constantBuffers.Length == 3
      modifies constantBuffers, p`resources, deviceContext`context
      ensures p.Valid()
      ensures ok <==> creations.AllCreated()
      ensures !ok ==> p.resources == old(p.resources) && deviceContext.context == old(deviceContext.context)
      ensures ok ==>
        && constantBuffers[..] == [creations.perApplication, creations.perFrame, creations.perObject]
        && p.resources == ConstantBuffersBound(old(p.resources), creations.perApplication, creations.perFrame, creations.perObject)
        && deviceContext.context.bindings == old(deviceContext.context.bindings)
        && deviceContext.context.trace == old(deviceContext.context.trace) + [D3D11.UpdateSubresource(creations.perApplication, projection)]
    {
      ok := CreateConstantBuffers(creations);
      if !ok {
        return false;
      }
      p.BindVertexStageConstantBuffer(0, constantBuffers[0]);
      p.BindVertexStageConstantBuffer(1, constantBuffers[1]);
      p.BindVertexStageConstantBuffer(2, constantBuffers[2]);
      deviceContext.UpdateSubresource(constantBuffers[0], projection);
    }

    /** The texture and sampler steps of Load: each is bound to slot 0 of p once created. */
    method BindTextureAndSampler(p: Pipeline, loadTexture: string -> Ptr) returns (ok: bool)
      requires p.Valid() && p.resources == map[]
      modifies this`textureSrv, this`linearSamplerState, p`resources
      ensures p.Valid()
      ensures ok <==> loadTexture(TEXTURE_PATH).Some? && device.createSamplerState(LINEAR_SAMPLER).Some?
      ensures loadTexture(TEXTURE_PATH).None? ==> p.resources == map[]
      ensures loadTexture(TEXTURE_PATH).Some? ==> textureSrv == loadTexture(TEXTURE_PATH)
      ensures loadTexture(TEXTURE_PATH).Some? && device.createSamplerState(LINEAR_SAMPLER).None? ==> p.resources == TextureBound(textureSrv)
      ensures ok ==> linearSamplerState == device.createSamplerState(LINEAR_SAMPLER) && p.resources == SamplerBound(textureSrv, linearSamplerState)
    {
      var srv := loadTexture(TEXTURE_PATH);
      if srv.None? {
        return false;
      }
      textureSrv := srv;
      p.BindTexture(0, srv);
      var sampler := device.createSamplerState(LINEAR_SAMPLER);
      linearSamplerState := sampler;
      if sampler.None? {
        return false;
      }
      p.BindSampler(0, sampler);
      ok := true;
    }

    /** The model step of Load, then the constant-buffer steps. */
    method LoadModelAndConstantBuffers(p: Pipeline, readFile: string -> Option<Scene>, creations: ConstantBufferCreations, projection: nat)
      returns (ok: bool)
      requires p.Valid() && p.vertexSize == VERTEX_SIZE && constantBuffers.Length == 3
      requires pipeline == p && p.resources == SamplerBound(textureSrv, linearSamplerState)
      modifies this`modelVertices, this`modelIndices, this`modelVertexCount, this`modelIndexCount, constantBuffers,
               p`resources, deviceContext`context
      ensures p.Valid()
      ensures ok <==> MF.ModelLoads(device, readFile(MODEL_PATH)) && creations.AllCreated()
      ensures !ok ==> p.resources == old(p.resources) && deviceContext.context == old(deviceContext.context)
      ensures ok ==>
        && constantBuffers[..] == [creations.perApplication, creations.perFrame, creations.perObject]
        && p.resources == LoadedResources(textureSrv, linearSamplerState, creations.perApplication, creations.perFrame, creations.perObject)
        && deviceContext.context.bindings == old(deviceContext.context.bindings)
        && deviceContext.context.trace == old(deviceContext.context.trace) + [D3D11.UpdateSubresource(creations.perApplication, projection)]
        && (MF.ModelFits(readFile(MODEL_PATH)) ==> ModelReady(modelVertices, modelIndices, modelIndexCount))
    {
      ghost var before := Model();
      ok := LoadModel(MODEL_PATH, readFile);
      MF.LoadOutcomeSucceeds(device, readFile(MODEL_PATH), before);
      if !ok {
        return false;
      }
      if MF.ModelFits(readFile(MODEL_PATH)) {
        MF.LoadedIndicesGiveBackCount(device, readFile(MODEL_PATH), before);
        assert ModelReady(modelVertices, modelIndices, modelIndexCount);
      }
      ok := CreateAndBindConstantBuffers(p, creations, projection);
    }

    /** Load after the pipeline exists: the texture, sampler, model and constant-buffer steps, up to the first that fails. */
    method LoadResources(p: Pipeline, readFile: string -> Option<Scene>, loadTexture: string -> Ptr, creations: ConstantBufferCreations,
                         projection: nat) returns (ok: bool)
      requires p.Valid() && p.resources == map[] && p.vertexSize == VERTEX_SIZE && pipeline == p
      requires constantBuffers.Length == 3
      modifies this`textureSrv, this`linearSamplerState, this`modelVertices, this`modelIndices, this`modelVertexCount,
               this`modelIndexCount, constantBuffers, p`resources, deviceContext`context
      ensures p.Valid() && unchanged(p`vertexSize, p`primitiveTopology, p`viewport) && pipeline == p
      ensures var step := ResourceStep(device, loadTexture(TEXTURE_PATH), readFile(MODEL_PATH), creations);
        && (ok <==> step == Done)
        && (step == LoadingTexture ==> p.resources == map[])
        && (step == CreatingSampler ==> p.resources == TextureBound(textureSrv))
        && (StopsAfterSampler(step) ==> p.resources == SamplerBound(textureSrv, linearSamplerState))
        && (step == Done ==> p.resources == LoadedResources(textureSrv, linearSamplerState, creations.perApplication, creations.perFrame, creations.perObject))
        && (step != LoadingTexture ==> textureSrv == loadTexture(TEXTURE_PATH))
        && (step !in {LoadingTexture, CreatingSampler} ==> linearSamplerState == device.createSamplerState(LINEAR_SAMPLER))
      ensures ok ==>
        && constantBuffers[..] == [creations.perApplication, creations.perFrame, creations.perObject]
        && deviceContext.context.bindings == old(deviceContext.context.bindings)
        && deviceContext.context.trace == old(deviceContext.context.trace) + [D3D11.UpdateSubresource(creations.perApplication, projection)]
        && (MF.ModelFits(readFile(MODEL_PATH)) ==> ModelReady(modelVertices, modelIndices, modelIndexCount))
      ensures !ok ==> deviceContext.context == old(deviceContext.context)
    {
      ghost var step := ResourceStep(device, loadTexture(TEXTURE_PATH), readFile(MODEL_PATH), creations);
      ok := BindTextureAndSampler(p, loadTexture);
      if !ok {
        if loadTexture(TEXTURE_PATH).None? {
          assert step == LoadingTexture;
        } else {
          assert step == CreatingSampler;
        }
        return false;
      }
      ok := LoadModelAndConstantBuffers(p, readFile, creations, projection);
      if !ok {
        assert StopsAfterSampler(step);
      } else {
        assert step == Done;
      }
    }

    /**
     * Load: create the pipeline, give it the window's viewport, then bind the
     * texture, the sampler, load the model, create and bind the three constant
     * buffers and upload the projection matrix; the first failing step ends
     * Load with false and leaves the table as the earlier steps built it.
     */
    method Load(readFile: string -> Option<Scene>, loadTexture: string -> Ptr, creations: ConstantBufferCreations, projection: nat)
      returns (ok: bool)
      requires pipelineFactory.Valid() && pipelineFactory.device == device
      requires VertexShaderCompiles(device, VERTEX_SHADER_PATH)
      requires constantBuffers.Length == 3
      modifies this`pipeline, this`textureSrv, this`linearSamplerState, this`modelVertices, this`modelIndices,
               this`modelVertexCount, this`modelIndexCount, constantBuffers, deviceContext`context
      ensures pipeline != null && fresh(pipeline) && pipeline.Valid()
      ensures var step := StopStep(device, loadTexture(TEXTURE_PATH), readFile(MODEL_PATH), creations);
        && (ok <==> step == Done)
        && (step in {CreatingPipeline, LoadingTexture} ==> pipeline.resources == map[])
        && (step == CreatingSampler ==> pipeline.resources == TextureBound(textureSrv))
        && (StopsAfterSampler(step) ==> pipeline.resources == SamplerBound(textureSrv, linearSamplerState))
        && (step == Done ==> pipeline.resources == LoadedResources(textureSrv, linearSamplerState, creations.perApplication, creations.perFrame, creations.perObject))
        && (step != CreatingPipeline ==>
              && pipeline.vertexSize == VERTEX_SIZE && pipeline.primitiveTopology == TriangleList
              && pipeline.viewport == FullDepthViewport(0.0, 0.0, windowWidth as real, windowHeight as real))
        && (step !in {CreatingPipeline, LoadingTexture} ==> textureSrv == loadTexture(TEXTURE_PATH))
        && (step !in {CreatingPipeline, LoadingTexture, CreatingSampler} ==> linearSamplerState == device.createSamplerState(LINEAR_SAMPLER))
      ensures ok ==>
        && constantBuffers[..] == [creations.perApplication, creations.perFrame, creations.perObject]
        && deviceContext.context.bindings == old(deviceContext.context.bindings)
        && deviceContext.context.trace == old(deviceContext.context.trace) + [D3D11.UpdateSubresource(creations.perApplication, projection)]
        && (MF.ModelFits(readFile(MODEL_PATH)) ==> ModelReady(modelVertices, modelIndices, modelIndexCount))
      ensures !ok ==> deviceContext.context == old(deviceContext.context)
    {
      ghost var step := StopStep(device, loadTexture(TEXTURE_PATH), readFile(MODEL_PATH), creations);
      var created := CreateWindowPipeline();
      if !created {
        assert step == CreatingPipeline;
        return false;
      }
      assert step == ResourceStep(device, loadTexture(TEXTURE_PATH), readFile(MODEL_PATH), creations);
      ok := LoadResources(pipeline, readFile, loadTexture, creations, projection);
    }

    /** The first step of Load: create the pipeline and, when that succeeds, give it the window's viewport. */
    method CreateWindowPipeline() returns (created: bool)
      requires pipelineFactory.Valid() && pipelineFactory.device == device
      requires VertexShaderCompiles(device, VERTEX_SHADER_PATH)
      modifies this`pipeline
      ensures pipeline != null && fresh(pipeline) && pipeline.Valid() && pipeline.resources == map[]
      ensures created <==> PipelineCreated(device)
      ensures created ==>
        && pipeline.vertexSize == VERTEX_SIZE && pipeline.primitiveTopology == TriangleList
        && pipeline.viewport == FullDepthViewport(0.0, 0.0, windowWidth as real, windowHeight as real)
    {
      var p;
      created, p := pipelineFactory.CreatePipeline(PIPELINE_DESCRIPTOR);
      pipeline := p;
      if created {
        p.SetViewport(0.0, 0.0, windowWidth as real, windowHeight as real);
      }
    }

    /** The first half of Render: clear the render target, then install the pipeline with its table and viewport. */
    method InstallPipeline(renderTarget: Ptr)
      requires pipeline != null
      modifies deviceContext`context, deviceContext`activePipeline, deviceContext`traversal
      ensures deviceContext.activePipeline.Some? && deviceContext.activePipeline.value == pipeline
      ensures IsTraversal(deviceContext.traversal, pipeline.resources)
      ensures deviceContext.context.trace == old(deviceContext.context.trace)
        + ClearCalls(renderTarget, CLEAR_COLOR) + ShaderCalls(pipeline) + RouteCalls(pipeline.resources, deviceContext.traversal)
        + [RSSetViewports([pipeline.viewport])]
      ensures deviceContext.context.bindings.renderTargets == [renderTarget]
    {
      var dc := deviceContext;
      dc.Clear(renderTarget, CLEAR_COLOR);
      dc.SetPipeline(pipeline);
    }

    /** The second half of Render: bind the model's buffers with offset 0 and draw every index. */
    method DrawModel()
      requires pipeline != null && pipeline.vertexSize == VERTEX_SIZE
      requires ModelReady(modelVertices, modelIndices, modelIndexCount)
      requires deviceContext.activePipeline.Some? && deviceContext.activePipeline.value == pipeline
      modifies deviceContext`context, deviceContext`drawVertices, deviceContext`drawIndices
      ensures deviceContext.drawIndices == Some(modelIndexCount)
      ensures deviceContext.context.trace
           == old(deviceContext.context.trace) + ModelDrawCalls(modelVertices.value, modelIndices.value, modelIndexCount)
      ensures deviceContext.context.bindings.renderTargets == old(deviceContext.context.bindings.renderTargets)
      ensures deviceContext.context.bindings.indexBuffer == Some(IndexBinding(Some(modelIndices.value.handle), R32_UINT, 0))
      ensures 0 in deviceContext.context.bindings.vertexBuffers
           && deviceContext.context.bindings.vertexBuffers[0] == VertexBinding(Some(modelVertices.value.handle), VERTEX_SIZE, 0)
    {
      var dc := deviceContext;
      ghost var start := dc.context.trace;
      dc.SetVertexBuffer(modelVertices.value, 0);
      dc.SetIndexBuffer(modelIndices.value, 0);
      dc.DrawIndexed();
      AppendThree(start, VertexBufferCall(modelVertices.value, VERTEX_SIZE, 0), IndexBufferCall(modelIndices.value, 0),
                  D3D11.DrawIndexed(modelIndexCount, 0, 0));
    }

    /**
     * Render: clear the render target, install the pipeline, bind the model's
     * buffers and draw its indices. ModelReady is what a successful Load of a
     * model that fits leaves, so the draw covers exactly the model's indices.
     */
    method Render(renderTarget: Ptr)
      requires pipeline != null && pipeline.vertexSize == VERTEX_SIZE
      requires ModelReady(modelVertices, modelIndices, modelIndexCount)
      modifies deviceContext`context, deviceContext`activePipeline, deviceContext`traversal,
               deviceContext`drawVertices, deviceContext`drawIndices
      ensures deviceContext.activePipeline.Some? && deviceContext.activePipeline.value == pipeline
      ensures deviceContext.drawIndices == Some(modelIndexCount)
      ensures IsTraversal(deviceContext.traversal, pipeline.resources)
      ensures deviceContext.context.trace == old(deviceContext.context.trace)
        + ClearCalls(renderTarget, CLEAR_COLOR) + ShaderCalls(pipeline) + RouteCalls(pipeline.resources, deviceContext.traversal)
        + [RSSetViewports([pipeline.viewport])] + ModelDrawCalls(modelVertices.value, modelIndices.value, modelIndexCount)
      ensures deviceContext.context.bindings.renderTargets == [renderTarget]
      ensures deviceContext.context.bindings.indexBuffer == Some(IndexBinding(Some(modelIndices.value.handle), R32_UINT, 0))
      ensures 0 in deviceContext.context.bindings.vertexBuffers
           && deviceContext.context.bindings.vertexBuffers[0] == VertexBinding(Some(modelVertices.value.handle), VERTEX_SIZE, 0)
    {
      InstallPipeline(renderTarget);
      DrawModel();
    }
  }
}
