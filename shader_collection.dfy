/**
 * The ShaderCollection of the 3D-rendering chapter: a vertex shader, a pixel
 * shader and an input layout created together from two files and a vertex
 * type, applied to a context as a unit and released as a unit.
 */
module ShaderCollections {
  import opened Wrappers
  import opened Ints
  import opened D3D11
  import opened VertexLayouts
  import opened Shaders

  datatype ShaderCollectionDescriptor = ShaderCollectionDescriptor(
    vertexShaderFilePath: string, pixelShaderFilePath: string, vertexType: VertexType)

  /** The static layout table: every vertex type's element list. */
  function LayoutMap(): (m: map<VertexType, seq<InputElementDesc>>)
    ensures forall t: VertexType :: t in m && m[t] == Layout(t)
  {
    LayoutTable()
  }

  /** GetLayoutByteSize: 24 or 32 bytes per vertex, the end of the type's last layout element. */
  function GetLayoutByteSize(vertexType: VertexType): (size: U32)
    ensures size == LayoutByteSize(vertexType)
    ensures Tiles(LayoutMap()[vertexType], size)
  {
    LayoutsTileVertices(vertexType);
    LayoutByteSize(vertexType)
  }

  class ShaderCollection {
    var vertexShader: Ptr
    var pixelShader: Ptr
    var inputLayout: Ptr
    var primitiveTopology: Topology
    var vertexSize: U32

    /** A value-initialised collection: everything null or zero. */
    constructor ()
      ensures vertexShader == None && pixelShader == None && inputLayout == None
      ensures primitiveTopology == Undefined && vertexSize == 0
    {
      vertexShader, pixelShader, inputLayout := None, None, None;
      primitiveTopology := Undefined;
      vertexSize := 0;
    }

    /**
     * CreateShaderCollection: when the input layout cannot be created the
     * result is an all-null collection and the shaders made so far are
     * dropped; otherwise it holds both shaders (either may be null) and the
     * layout. Topology and vertex size are never set. The vertex shader must
     * compile, because its blob is dereferenced for the layout.
     */
    static method CreateShaderCollection(settings: ShaderCollectionDescriptor, device: Device) returns (collection: ShaderCollection)
      requires VertexShaderCompiles(device, settings.vertexShaderFilePath)
      ensures fresh(collection)
      ensures var layout := device.createInputLayout(LayoutMap()[settings.vertexType],
                                                      CreateVertexShader(device, settings.vertexShaderFilePath).blob.value);
        && collection.inputLayout == layout
        && (layout.None? ==> collection.vertexShader == None && collection.pixelShader == None)
        && (layout.Some? ==>
              && collection.vertexShader == CreateVertexShader(device, settings.vertexShaderFilePath).shader
              && collection.pixelShader == CreatePixelShader(device, settings.pixelShaderFilePath))
      ensures collection.primitiveTopology == Undefined && collection.vertexSize == 0
    {
      collection := new ShaderCollection();
      var vertex := CreateVertexShader(device, settings.vertexShaderFilePath);
      collection.vertexShader := vertex.shader;
      collection.pixelShader := CreatePixelShader(device, settings.pixelShaderFilePath);
      collection.inputLayout := device.createInputLayout(LayoutMap()[settings.vertexType], vertex.blob.value);
      if collection.inputLayout.None? {
        collection := new ShaderCollection();
      }
    }

    /** ApplyToContext binds the input layout, the vertex shader and the pixel shader, and nothing else. */
    method ApplyToContext(context: Context) returns (r: Context)
      ensures r.bindings == context.bindings.(inputLayout := inputLayout, vertexShader := vertexShader, pixelShader := pixelShader)
      ensures r.trace == context.trace + [IASetInputLayout(inputLayout), VSSetShader(vertexShader), PSSetShader(pixelShader)]
    {
      r := Issue(context, IASetInputLayout(inputLayout));
      r := Issue(r, VSSetShader(vertexShader));
      r := Issue(r, PSSetShader(pixelShader));
    }

    /** Destroy releases the three objects; topology and vertex size are kept. */
    method Destroy()
      modifies this`vertexShader, this`pixelShader, this`inputLayout
      ensures vertexShader == None && pixelShader == None && inputLayout == None
    {
      vertexShader, pixelShader, inputLayout := None, None, None;
    }
  }
}
