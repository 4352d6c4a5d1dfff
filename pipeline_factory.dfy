/**
 * The camera chapter's PipelineFactory: it owns the device and the table of
 * input layouts per vertex type, and creates pipelines from a pair of shader
 * files and a vertex type.
 */
module PipelineFactories {
  import opened Wrappers
  import opened Ints
  import opened D3D11
  import opened VertexLayouts
  import opened Shaders
  import opened Pipelines

  datatype PipelineDescriptor = PipelineDescriptor(vertexFilePath: string, pixelFilePath: string, vertexType: VertexType)

  /** GetLayoutByteSize: the vertex struct size for the type, narrowed to 32 bits as the pipeline stores it. */
  function GetLayoutByteSize(vertexType: VertexType): (size: U32)
    ensures size == LayoutByteSize(vertexType) && size > 0
    ensures Tiles(Layout(vertexType), size)
  {
    LayoutsTileVertices(vertexType);
    ToU32(LayoutByteSize(vertexType))
  }

  class PipelineFactory {
    var device: Device
    var layoutMap: map<VertexType, seq<InputElementDesc>>

    /** The layout table holds the element list of every vertex type. */
    ghost predicate Valid()
      reads this
    {
      forall t: VertexType :: t in layoutMap && layoutMap[t] == Layout(t)
    }

    constructor (device: Device)
      ensures this.device == device && Valid()
      ensures layoutMap.Keys == {PositionColor, PositionColorUv}
    {
      this.device := device;
      layoutMap := LayoutTable();
    }

    /**
     * CreatePipeline: always a fresh pipeline holding whatever shaders could be
     * created; it succeeds exactly when the input layout is created, and only
     * then gets the triangle-list topology and the vertex size. The vertex
     * shader must compile, because its blob is dereferenced for the layout.
     */
    method CreatePipeline(settings: PipelineDescriptor) returns (ok: bool, pipeline: Pipeline)
      requires Valid()
      requires VertexShaderCompiles(device, settings.vertexFilePath)
      ensures fresh(pipeline) && pipeline.Valid()
      ensures pipeline.vertexShader == CreateVertexShader(device, settings.vertexFilePath).shader
      ensures pipeline.pixelShader == CreatePixelShader(device, settings.pixelFilePath)
      ensures pipeline.inputLayout == device.createInputLayout(Layout(settings.vertexType), CreateVertexShader(device, settings.vertexFilePath).blob.value)
      ensures ok <==> pipeline.inputLayout.Some?
      ensures ok ==> pipeline.primitiveTopology == TriangleList && pipeline.vertexSize == LayoutByteSize(settings.vertexType)
      ensures !ok ==> pipeline.primitiveTopology == Undefined && pipeline.vertexSize == 0
      ensures pipeline.resources == map[] && pipeline.viewport == ZeroViewport
      ensures pipeline.depthStencilState == None && pipeline.rasterizerState == None
    {
      pipeline := new Pipeline();
      var vertex := CreateVertexShader(device, settings.vertexFilePath);
      pipeline.vertexShader := vertex.shader;
      pipeline.pixelShader := CreatePixelShader(device, settings.pixelFilePath);
      pipeline.inputLayout := device.createInputLayout(layoutMap[settings.vertexType], vertex.blob.value);
      if pipeline.inputLayout.None? {
        return false, pipeline;
      }
      pipeline.primitiveTopology := TriangleList;
      pipeline.vertexSize := GetLayoutByteSize(settings.vertexType);
      ok := true;
    }
  }
}
