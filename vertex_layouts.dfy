/**
 * Vertex formats and the input-layout tables built from them. A position and
 * a colour are three 32-bit floats each, a texture coordinate two; the vertex
 * structs hold them in that order with no padding, so the byte offsets
 * (offsetof) are 0, 12 and 24 and the struct sizes 24 and 32.
 */
module VertexLayouts {
  import opened Ints
  import opened D3D11

  datatype VertexType = PositionColor | PositionColorUv

  /** sizeof(float) */
  const FLOAT_SIZE: nat := 4

  /** The byte size of one element of each format an input layout here uses; 0 for every other format. */
  function FormatByteSize(format: Format): (n: nat)
    ensures format == R32G32B32_FLOAT ==> n == 3 * FLOAT_SIZE
    ensures format == R32G32_FLOAT ==> n == 2 * FLOAT_SIZE
  {
    match format
    case R32G32B32_FLOAT => 12
    case R32G32_FLOAT => 8
    case _ => 0
  }

  /** One per-vertex element of input slot 0, semantic index 0. */
  function Element(semanticName: string, format: Format, offset: nat): InputElementDesc
  {
    InputElementDesc(semanticName, 0, format, 0, offset, PerVertexData, 0)
  }

  /** The member offsets of the vertex structs: position, then colour, then texture coordinate. */
  const POSITION_OFFSET: nat := 0
  const COLOR_OFFSET: nat := POSITION_OFFSET + 3 * FLOAT_SIZE
  const UV_OFFSET: nat := COLOR_OFFSET + 3 * FLOAT_SIZE

  /** The element list each vertex type is described by. */
  function Layout(vertexType: VertexType): seq<InputElementDesc>
  {
    match vertexType
    case PositionColor =>
      [Element("POSITION", R32G32B32_FLOAT, POSITION_OFFSET), Element("COLOR", R32G32B32_FLOAT, COLOR_OFFSET)]
    case PositionColorUv =>
      [Element("POSITION", R32G32B32_FLOAT, POSITION_OFFSET), Element("COLOR", R32G32B32_FLOAT, COLOR_OFFSET),
       Element("TEXCOORD", R32G32_FLOAT, UV_OFFSET)]
  }

  /** The table of element lists by vertex type that the factories fill in. */
  function LayoutTable(): (m: map<VertexType, seq<InputElementDesc>>)
    ensures forall t: VertexType :: t in m && m[t] == Layout(t)
  {
    var m := map[PositionColor := Layout(PositionColor), PositionColorUv := Layout(PositionColorUv)];
    assert forall t: VertexType :: t in m && m[t] == Layout(t) by {
      forall t: VertexType ensures t in m && m[t] == Layout(t) {
        if t.PositionColor? {
          assert t == PositionColor;
        } else {
          assert t == PositionColorUv;
        }
      }
    }
    m
  }

  /** sizeof(VertexPositionColor) and sizeof(VertexPositionColorUv). */
  function LayoutByteSize(vertexType: VertexType): (size: U32)
    ensures vertexType == PositionColor ==> size == 24
    ensures vertexType == PositionColorUv ==> size == 32
  {
    match vertexType
    case PositionColor => 6 * FLOAT_SIZE
    case PositionColorUv => 8 * FLOAT_SIZE
  }

  /** Where an element's bytes end. */
  function ElementEnd(e: InputElementDesc): nat
  {
    e.alignedByteOffset + FormatByteSize(e.format)
  }

  /**
   * The elements cover bytes 0 .. size of a vertex exactly: the first starts at
   * 0, each starts where the previous ends, and the last ends at the vertex size.
   */
  ghost predicate Tiles(layout: seq<InputElementDesc>, size: nat)
  {
    && |layout| > 0
    && layout[0].alignedByteOffset == 0
    && (forall i :: 0 < i < |layout| ==> layout[i].alignedByteOffset == ElementEnd(layout[i - 1]))
    && ElementEnd(layout[|layout| - 1]) == size
  }

  /** Elements of a tiling layout are in increasing order and never overlap. */
  lemma {:induction false} TilesDoNotOverlap(layout: seq<InputElementDesc>, size: nat, i: nat, j: nat)
    requires Tiles(layout, size)
    requires i < j < |layout|
    ensures ElementEnd(layout[i]) <= layout[j].alignedByteOffset
    decreases j - i
  {
    if i + 1 < j {
      TilesDoNotOverlap(layout, size, i + 1, j);
    }
  }

  /** Every element of a tiling layout lies inside the vertex. */
  lemma TilesStayInside(layout: seq<InputElementDesc>, size: nat, j: nat)
    requires Tiles(layout, size)
    requires j < |layout|
    ensures ElementEnd(layout[j]) <= size
  {
    if j + 1 < |layout| {
      TilesDoNotOverlap(layout, size, j, |layout| - 1);
    }
  }

  /** Each vertex type's layout tiles its struct: the elements sit back to back and end at LayoutByteSize. */
  lemma LayoutsTileVertices(vertexType: VertexType)
    ensures Tiles(Layout(vertexType), LayoutByteSize(vertexType))
    ensures forall e :: e in Layout(vertexType) ==> FormatByteSize(e.format) > 0 && e.inputSlot == 0 && e.inputSlotClass == PerVertexData
  {
  }

  /** The colour-and-texture layout is the colour layout with TEXCOORD appended. */
  lemma UvLayoutExtendsColorLayout()
    ensures Layout(PositionColorUv) == Layout(PositionColor) + [Element("TEXCOORD", R32G32_FLOAT, LayoutByteSize(PositionColor))]
  {
  }
}
