/**
 * The camera chapter's ModelFactory: LoadModel imports a file, turns its
 * first mesh into a vertex buffer and an index buffer, and reports the counts
 * through out-parameters that it writes one by one as it goes.
 */
module ModelFactories {
  import opened Wrappers
  import opened Ints
  import opened D3D11
  import opened Meshes
  import opened DeviceContextCommon

  /** What the out-parameters of LoadModel hold. */
  datatype ModelOutputs = ModelOutputs(vertexBuffer: Option<GpuBuffer>, vertexCount: U32, indexBuffer: Option<GpuBuffer>, indexCount: U32)

  /**
   * What LoadModel leaves in its outputs and returns, given the scene the
   * importer read. The three import checks fail before any output is written.
   * Then the vertex count is written and the vertex buffer created; if that
   * fails the index outputs are left as they were. Otherwise the index count is
   * written, the index buffer created, and the result says whether that worked.
   */
  function LoadOutcome(device: Device, scene: Option<Scene>, outputs: ModelOutputs): (bool, ModelOutputs)
  {
    match FirstMesh(scene)
    case Failure(_) => (false, outputs)
    case Success(mesh) =>
      var withVertices := outputs.(vertexCount := ToU32(|mesh.vertices|),
                                   vertexBuffer := CreateBuffer(device, VertexBufferDesc(|mesh.vertices|)));
      if withVertices.vertexBuffer.None? then (false, withVertices)
      else
        var count := |Flatten(mesh.faces)|;
        var r := withVertices.(indexCount := ToU32(count), indexBuffer := CreateBuffer(device, IndexBufferDesc(count)));
        (r.indexBuffer.Some?, r)
  }

  /** LoadModel succeeds exactly when the first mesh imports and both buffers are created. */
  predicate ModelLoads(device: Device, scene: Option<Scene>)
  {
    && FirstMesh(scene).Success?
    && device.createBuffer(VertexBufferDesc(|FirstMesh(scene).value.vertices|)).Some?
    && device.createBuffer(IndexBufferDesc(|Flatten(FirstMesh(scene).value.faces)|)).Some?
  }

  /** The byte widths of the model's buffers do not wrap around 32 bits. */
  predicate ModelFits(scene: Option<Scene>)
  {
    FirstMesh(scene).Success? ==>
      32 * |FirstMesh(scene).value.vertices| < TWO_32 && 4 * |Flatten(FirstMesh(scene).value.faces)| < TWO_32
  }

  /**
   * The result is true exactly when ModelLoads holds, and then both buffers
   * exist; on failure an output is only changed by a step that was reached.
   */
  lemma LoadOutcomeSucceeds(device: Device, scene: Option<Scene>, outputs: ModelOutputs)
    ensures var (ok, r) := LoadOutcome(device, scene, outputs);
      && (ok <==> ModelLoads(device, scene))
      && (ok ==> r.vertexBuffer.Some? && r.indexBuffer.Some?)
      && (FirstMesh(scene).Failure? ==> r == outputs)
      && (r.vertexBuffer.None? ==> r.indexBuffer == outputs.indexBuffer && r.indexCount == outputs.indexCount)
  {
  }

  /**
   * The vertex buffer a successful load creates gives back its count: binding
   * it through a DeviceContext recomputes exactly the number of converted
   * vertices, as long as the byte width fits in 32 bits.
   */
  lemma LoadedVerticesGiveBackCount(device: Device, scene: Option<Scene>, outputs: ModelOutputs, divisor: real)
    requires ModelFits(scene)
    ensures var (ok, r) := LoadOutcome(device, scene, outputs);
      ok ==> DrawVertexCount(r.vertexBuffer.value.desc.byteWidth, VERTEX_SIZE) == r.vertexCount
                == |Vertices(FirstMesh(scene).value, divisor)|
  {
    if FirstMesh(scene).Success? {
      VertexCountRoundTrip(|FirstMesh(scene).value.vertices|, VERTEX_SIZE);
    }
  }

  /**
   * The index buffer a successful load creates gives back its count: binding
   * it recomputes exactly the number of face indices, as long as the byte
   * width fits in 32 bits.
   */
  lemma LoadedIndicesGiveBackCount(device: Device, scene: Option<Scene>, outputs: ModelOutputs)
    requires ModelFits(scene)
    ensures var (ok, r) := LoadOutcome(device, scene, outputs);
      ok ==> DrawIndexCount(r.indexBuffer.value.desc.byteWidth) == r.indexCount == IndexTotal(FirstMesh(scene).value.faces)
  {
    if FirstMesh(scene).Success? {
      var mesh := FirstMesh(scene).value;
      IndexCountRoundTrip(|Flatten(mesh.faces)|);
      FlattenLength(mesh.faces);
    }
  }

  /** This loader divides positions by 10. */
  const POSITION_DIVISOR: real := 10.0

  class ModelFactory {
    var device: Device

    constructor (device: Device)
      ensures this.device == device
    {
      this.device := device;
    }

    /**
     * LoadModel, with the scene importer as an oracle: the outputs follow
     * LoadOutcome, and the vertex and index data given to the buffers are
     * returned as well.
     */
    method LoadModel(filePath: string, readFile: string -> Option<Scene>, outputs: ModelOutputs)
      returns (ok: bool, r: ModelOutputs, vertices: seq<Vertex>, indices: seq<U32>)
      ensures (ok, r) == LoadOutcome(device, readFile(filePath), outputs)
      ensures FirstMesh(readFile(filePath)).Success? ==>
        var mesh := FirstMesh(readFile(filePath)).value;
        && vertices == Vertices(mesh, POSITION_DIVISOR)
        && (r.vertexBuffer.Some? ==> indices == Flatten(mesh.faces))
    {
      var found := FirstMesh(readFile(filePath));
      if found.Failure? {
        return false, outputs, [], [];
      }
      var mesh := found.value;
      vertices := AssembleVertices(mesh, POSITION_DIVISOR);
      r := outputs.(vertexCount := ToU32(|vertices|));
      r := r.(vertexBuffer := CreateBuffer(device, VertexBufferDesc(|vertices|)));
      if r.vertexBuffer.None? {
        return false, r, vertices, [];
      }
      indices := CollectIndices(mesh.faces);
      r := r.(indexCount := ToU32(|indices|));
      r := r.(indexBuffer := CreateBuffer(device, IndexBufferDesc(|indices|)));
      ok := r.indexBuffer.Some?;
    }
  }
}
