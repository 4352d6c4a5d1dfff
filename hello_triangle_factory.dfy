/**
 * The PipelineFactory of the refactored hello-triangle chapter. Its vertex
 * type enumeration has the colour vertex only, and so does its layout table.
 */
module HelloTriangleFactory {
  import opened Wrappers
  import opened Ints
  import opened D3D11
  import VL = VertexLayouts
  import opened Shaders
  import opened Pipelines

  datatype VertexType = PositionColor

  datatype PipelineSettings = PipelineSettings(vertexFilePath: string, pixelFilePath: string, vertexType: VertexType)

  /** GetLayoutByteSize: sizeof(VertexPositionColor); the fallback 0 of the switch cannot be reached with this enumeration. */
  function GetLayoutByteSize(vertexType: VertexType): (size: U32)
    ensures size == VL.LayoutByteSize(VL.PositionColor) && size == 24
    ensures size > 0 && VL.Tiles(VL.Layout(VL.PositionColor), size)
  {
    VL.LayoutsTileVertices(VL.PositionColor);
    match vertexType
    case PositionColor => VL.LayoutByteSize(VL.PositionColor)
  }

  /** The element list of the colour vertex: POSITION then COLOR, both three floats. */
  function Layout(vertexType: VertexType): (layout: seq<InputElementDesc>)
    ensures layout == VL.Layout(VL.PositionColor)
    ensures VL.Tiles(layout, GetLayoutByteSize(vertexType))
  {
    VL.LayoutsTileVertices(VL.PositionColor);
    match vertexType
    case PositionColor =>
      [VL.Element("POSITION", R32G32B32_FLOAT, VL.POSITION_OFFSET), VL.Element("COLOR", R32G32B32_FLOAT, VL.COLOR_OFFSET)]
  }

  class PipelineFactory {
    var device: Device
    var layoutMap: map<VertexType, seq<InputElementDesc>>

    ghost predicate Valid()
      reads this
    {
      PositionColor in layoutMap && layoutMap[PositionColor] == Layout(PositionColor)
    }

    constructor (device: Device)
      ensures this.device == device && Valid()
      ensures layoutMap.Keys == {PositionColor}
    {
      this.device := device;
      layoutMap := map[PositionColor := Layout(PositionColor)];
    }

    /**
     * CreatePipeline: always a fresh pipeline with whatever shaders could be
     * created; success exactly when the input layout is created, and only then
     * the triangle-list topology and the vertex size.
     */
    method CreatePipeline(settings: PipelineSettings) returns (ok: bool, pipeline: Pipeline)
      requires Valid()
      requires VertexShaderCompiles(device, settings.vertexFilePath)
      ensures fresh(pipeline) && pipeline.Valid()
      ensures pipeline.vertexShader == CreateVertexShader(device, settings.vertexFilePath).shader
      ensures pipeline.pixelShader == CreatePixelShader(device, settings.pixelFilePath)
      ensures pipeline.inputLayout == device.createInputLayout(Layout(settings.vertexType), CreateVertexShader(device, settings.vertexFilePath).blob.value)
      ensures ok <==> pipeline.inputLayout.Some?
      ensures ok ==> pipeline.primitiveTopology == TriangleList && pipeline.vertexSize == GetLayoutByteSize(settings.vertexType)
      ensures !ok ==> pipeline.primitiveTopology == Undefined && pipeline.vertexSize == 0
      ensures pipeline.resources == map[] && pipeline.viewport == ZeroViewport
    {
      pipeline := new Pipeline();
      assert settings.vertexType == PositionColor;
      var vertex := CreateVertexShader(device, settings.vertexFilePath);
      pipeline.vertexShader := vertex.shader;
      pipeline.pixelShader := CreatePixelShader(device, settings.pixelFilePath);
      pipeline.inputLayout := device.createInputLayout(layoutMap[settings.vertexType], vertex.blob.value);
      if pipeline.inputLayout.None? {
        return false, pipeline;
      }
      pipeline.primitiveTopology := TriangleList;
      pipeline.vertexSize := GetLayoutByteSize(settings.vertexType);
      ok := true;
    }
  }
}
