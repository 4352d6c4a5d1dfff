/**
 * An imported model as the mesh loaders see it, and the two conversions they
 * apply to the first mesh: each mesh vertex becomes a position-colour-uv
 * vertex (grey and (0, 0) standing in for missing colours and texture
 * coordinates), and the faces' index lists are concatenated in face order.
 */
module Meshes {
  import opened Wrappers
  import opened Ints
  import opened D3D11

  datatype Vector3 = Vector3(x: real, y: real, z: real)
  datatype Vector2 = Vector2(x: real, y: real)
  datatype Color = Color(r: real, g: real, b: real)

  /** One vertex of an imported mesh: position, and colour and texture coordinate of set 0 (meaningful only when the mesh has them). */
  datatype MeshVertex = MeshVertex(position: Vector3, color: Color, texCoord: Vector2)

  /** An imported mesh: which attributes it carries, its vertices and the index list of each face. */
  datatype Mesh = Mesh(
    hasPositions: bool, hasVertexColors: bool, hasTextureCoords: bool,
    vertices: seq<MeshVertex>, faces: seq<seq<U32>>)

  datatype Scene = Scene(meshes: seq<Mesh>)

  /** A position divided by the loader's scale factor (1, 10 or 100); the float division itself is not modelled. */
  datatype ScaledPosition = ScaledPosition(source: Vector3, divisor: real)

  /** VertexPositionColorUv */
  datatype Vertex = VertexPositionColorUv(position: ScaledPosition, color: Color, uv: Vector2)

  const DEFAULT_COLOR: Color := Color(0.5, 0.5, 0.5)
  const DEFAULT_UV: Vector2 := Vector2(0.0, 0.0)

  datatype ImportError = SceneNotLoaded | NoMeshes | NoPositions

  /**
   * The checks every loader makes before writing anything, in their order:
   * the file did not import, the scene has no mesh, the first mesh has no
   * positions. Only the first mesh is ever used.
   */
  function FirstMesh(scene: Option<Scene>): (r: Result<Mesh, ImportError>)
    ensures r == Failure(SceneNotLoaded) <==> scene.None?
    ensures r == Failure(NoMeshes) <==> scene.Some? && |scene.value.meshes| == 0
    ensures r == Failure(NoPositions) <==> scene.Some? && |scene.value.meshes| > 0 && !scene.value.meshes[0].hasPositions
    ensures r.Success? ==> scene.Some? && |scene.value.meshes| > 0 && r.value == scene.value.meshes[0] && r.value.hasPositions
  {
    if scene.None? then Failure(SceneNotLoaded)
    else if |scene.value.meshes| == 0 then Failure(NoMeshes)
    else if !scene.value.meshes[0].hasPositions then Failure(NoPositions)
    else Success(scene.value.meshes[0])
  }

  /** The vertex built from one mesh vertex. */
  function ConvertVertex(mesh: Mesh, v: MeshVertex, divisor: real): Vertex
  {
    VertexPositionColorUv(
      ScaledPosition(v.position, divisor),
      if mesh.hasVertexColors then v.color else DEFAULT_COLOR,
      if mesh.hasTextureCoords then v.texCoord else DEFAULT_UV)
  }

  /** The vertex list of a mesh: one converted vertex per mesh vertex, in order. */
  function Vertices(mesh: Mesh, divisor: real): seq<Vertex>
  {
    seq(|mesh.vertices|, i requires 0 <= i < |mesh.vertices| => ConvertVertex(mesh, mesh.vertices[i], divisor))
  }

  /** Vertex i keeps mesh vertex i's position, and its colour and uv exactly when the mesh has those attributes. */
  lemma VerticesFollowMesh(mesh: Mesh, divisor: real, i: nat)
    requires i < |mesh.vertices|
    ensures |Vertices(mesh, divisor)| == |mesh.vertices|
    ensures Vertices(mesh, divisor)[i].position == ScaledPosition(mesh.vertices[i].position, divisor)
    ensures Vertices(mesh, divisor)[i].color == (if mesh.hasVertexColors then mesh.vertices[i].color else DEFAULT_COLOR)
    ensures Vertices(mesh, divisor)[i].uv == (if mesh.hasTextureCoords then mesh.vertices[i].texCoord else DEFAULT_UV)
  {
  }

  /** The loop that pushes one vertex per mesh vertex. */
  method AssembleVertices(mesh: Mesh, divisor: real) returns (vertices: seq<Vertex>)
    ensures vertices == Vertices(mesh, divisor)
  {
    vertices := [];
    var i := 0;
    while i < |mesh.vertices|
      invariant 0 <= i <= |mesh.vertices|
      invariant vertices == Vertices(mesh, divisor)[..i]
    {
      var v := mesh.vertices[i];
      var color := if mesh.hasVertexColors then v.color else DEFAULT_COLOR;
      var uv := if mesh.hasTextureCoords then v.texCoord else DEFAULT_UV;
      vertices := vertices + [VertexPositionColorUv(ScaledPosition(v.position, divisor), color, uv)];
      i := i + 1;
    }
  }

  /** The index lists of the faces, concatenated in face order. */
  function Flatten(faces: seq<seq<U32>>): seq<U32>
    decreases |faces|
  {
    if |faces| == 0 then [] else Flatten(faces[..|faces| - 1]) + faces[|faces| - 1]
  }

  /** The number of indices over all faces. */
  function IndexTotal(faces: seq<seq<U32>>): nat
    decreases |faces|
  {
    if |faces| == 0 then 0 else IndexTotal(faces[1..]) + |faces[0]|
  }

  lemma {:induction false} IndexTotalAppend(faces: seq<seq<U32>>, face: seq<U32>)
    ensures IndexTotal(faces + [face]) == IndexTotal(faces) + |face|
    decreases |faces|
  {
    if |faces| == 0 {
      assert (faces + [face])[1..] == [];
    } else {
      assert (faces + [face])[1..] == faces[1..] + [face];
      IndexTotalAppend(faces[1..], face);
    }
  }

  /** The flattened list holds exactly as many indices as the faces together. */
  lemma {:induction false} FlattenLength(faces: seq<seq<U32>>)
    ensures |Flatten(faces)| == IndexTotal(faces)
    decreases |faces|
  {
    if |faces| > 0 {
      var init := faces[..|faces| - 1];
      FlattenLength(init);
      assert faces == init + [faces[|faces| - 1]];
      IndexTotalAppend(init, faces[|faces| - 1]);
    }
  }

  /** Triangulated faces: three indices per face. */
  lemma {:induction false} FlattenTriangles(faces: seq<seq<U32>>)
    requires forall i :: 0 <= i < |faces| ==> |faces[i]| == 3
    ensures |Flatten(faces)| == 3 * |faces|
    decreases |faces|
  {
    if |faces| > 0 {
      FlattenTriangles(faces[..|faces| - 1]);
    }
  }

  /** Index j of face i lands at position IndexTotal(faces[..i]) + j of the flattened list. */
  lemma {:induction false} FlattenAt(faces: seq<seq<U32>>, i: nat, j: nat)
    requires i < |faces| && j < |faces[i]|
    ensures IndexTotal(faces[..i]) + j < |Flatten(faces)|
    ensures Flatten(faces)[IndexTotal(faces[..i]) + j] == faces[i][j]
    decreases |faces|
  {
    var last := |faces| - 1;
    var init := faces[..last];
    FlattenLength(init);
    if i == last {
      assert faces[..i] == init;
    } else {
      assert init[..i] == faces[..i];
      FlattenAt(init, i, j);
    }
  }

  /** The nested loop that pushes every index of every face. */
  method CollectIndices(faces: seq<seq<U32>>) returns (indices: seq<U32>)
    ensures indices == Flatten(faces)
  {
    indices := [];
    var i := 0;
    while i < |faces|
      invariant 0 <= i <= |faces|
      invariant indices == Flatten(faces[..i])
    {
      var j := 0;
      while j < |faces[i]|
        invariant 0 <= j <= |faces[i]|
        invariant indices == Flatten(faces[..i]) + faces[i][..j]
      {
        indices := indices + [faces[i][j]];
        j := j + 1;
      }
      assert faces[..i + 1][..i] == faces[..i];
      assert faces[i][..j] == faces[i];
      i := i + 1;
    }
    assert faces[..i] == faces;
  }

  /** sizeof(VertexPositionColorUv) */
  const VERTEX_SIZE: U32 := 32
  /** sizeof(uint32_t) */
  const INDEX_SIZE: U32 := 4

  /** The immutable vertex buffer for count vertices: size · count, narrowed to 32 bits. */
  function VertexBufferDesc(count: nat): (desc: BufferDesc)
    ensures 32 * count < TWO_32 ==> desc.byteWidth == 32 * count
    ensures desc.usage == Immutable && desc.bindFlags == VertexBufferBind
  {
    BufferDesc(ToU32(VERTEX_SIZE * count), Immutable, VertexBufferBind)
  }

  /** The immutable index buffer for count 32-bit indices. */
  function IndexBufferDesc(count: nat): (desc: BufferDesc)
    ensures 4 * count < TWO_32 ==> desc.byteWidth == 4 * count
    ensures desc.usage == Immutable && desc.bindFlags == IndexBufferBind
  {
    BufferDesc(ToU32(INDEX_SIZE * count), Immutable, IndexBufferBind)
  }
}
