/**
 * The single-file textured-cube sample: the WIC-to-DXGI format table, the
 * bits-per-pixel table, the pixel-buffer sizes LoadTexture derives from them,
 * and the cube's 16-bit index data with the indexed draw that reads it.
 */
module HelloFroge {
  import opened Ints
  import opened D3D11

  /** The WIC pixel formats the sample knows, and every other GUID. */
  datatype WicPixelFormat =
    | Rgba128Float | Rgba64Half | Rgba64 | Rgba32 | Bgra32 | Bgr32
    | Rgba1010102XR | Rgba1010102 | Bgra5551 | Bgr565
    | GrayFloat32 | GrayHalf16 | Gray16 | Gray8 | Alpha8
    | OtherPixelFormat(guid: nat)

  /** GetTextureFormat: the fifteen listed WIC formats, each to its DXGI format; anything else is UNKNOWN. */
  function TextureFormat(pixelFormat: WicPixelFormat): (format: Format)
    ensures format == UNKNOWN <==> pixelFormat.OtherPixelFormat?
  {
    match pixelFormat
    case Rgba128Float => R32G32B32A32_FLOAT
    case Rgba64Half => R16G16B16A16_FLOAT
    case Rgba64 => R16G16B16A16_UNORM
    case Rgba32 => R8G8B8A8_UNORM
    case Bgra32 => B8G8R8A8_UNORM
    case Bgr32 => B8G8R8X8_UNORM
    case Rgba1010102XR => R10G10B10_XR_BIAS_A2_UNORM
    case Rgba1010102 => R10G10B10A2_UNORM
    case Bgra5551 => B5G5R5A1_UNORM
    case Bgr565 => B5G6R5_UNORM
    case GrayFloat32 => R32_FLOAT
    case GrayHalf16 => R16_FLOAT
    case Gray16 => R16_UNORM
    case Gray8 => R8_UNORM
    case Alpha8 => A8_UNORM
    case OtherPixelFormat(_) => UNKNOWN
  }

  /** No two known WIC formats share a DXGI format. */
  lemma TextureFormatIsInjective(a: WicPixelFormat, b: WicPixelFormat)
    requires !a.OtherPixelFormat? && !b.OtherPixelFormat? && a != b
    ensures TextureFormat(a) != TextureFormat(b)
  {
  }

  /** The bits-per-pixel table as its literals read, A8_UNORM at 16 included. */
  const BITS_PER_PIXEL: map<Format, nat> := map[
    R32G32B32A32_FLOAT := 128, R16G16B16A16_FLOAT := 64, R16G16B16A16_UNORM := 64,
    R8G8B8A8_UNORM := 32, B8G8R8A8_UNORM := 32, B8G8R8X8_UNORM := 32,
    R10G10B10_XR_BIAS_A2_UNORM := 32, R10G10B10A2_UNORM := 32,
    B5G5R5A1_UNORM := 16, B5G6R5_UNORM := 16,
    R32_FLOAT := 32, R16_FLOAT := 16, R16_UNORM := 16, R8_UNORM := 8, A8_UNORM := 16]

  /**
   * GetBitsPerPixel as written: the table's value narrowed to the int8_t the
   * function returns; a format missing from the table reads as 0, which the
   * map's operator[] inserts.
   */
  function GetBitsPerPixel(format: Format): (bits: I8)
    ensures format in BITS_PER_PIXEL && BITS_PER_PIXEL[format] < 128 ==> bits == BITS_PER_PIXEL[format]
    ensures format !in BITS_PER_PIXEL ==> bits == 0
  {
    ToI8(if format in BITS_PER_PIXEL then BITS_PER_PIXEL[format] else 0)
  }

  /** The 128-bit format's entry does not fit in int8_t: it comes back as -128. */
  lemma BitsPerPixelWraps()
    ensures BITS_PER_PIXEL[R32G32B32A32_FLOAT] == 128
    ensures GetBitsPerPixel(R32G32B32A32_FLOAT) == -128
    ensures ToU32(GetBitsPerPixel(R32G32B32A32_FLOAT)) == TWO_32 - 128
  {
  }

  /** The bits per pixel the table means, in a type wide enough for all of them. */
  function BitsPerPixel(format: Format): (bits: nat)
    ensures format in BITS_PER_PIXEL ==> bits == BITS_PER_PIXEL[format]
    ensures format !in BITS_PER_PIXEL ==> bits == 0
  {
    if format in BITS_PER_PIXEL then BITS_PER_PIXEL[format] else 0
  }

  /** The narrowed and the wide value agree for every format but the 128-bit one. */
  lemma NarrowBitsAgreeBelow128(format: Format)
    requires format != R32G32B32A32_FLOAT
    ensures GetBitsPerPixel(format) == BitsPerPixel(format)
  {
    if format in BITS_PER_PIXEL {
      assert BITS_PER_PIXEL[format] <= 64;
    }
  }

  /**
   * Every format GetTextureFormat can return other than UNKNOWN has a table
   * entry: a nonzero whole number of bytes of at most 128 bits.
   */
  lemma {:induction false} SupportedFormatsHaveBits(pixelFormat: WicPixelFormat)
    requires !pixelFormat.OtherPixelFormat?
    ensures TextureFormat(pixelFormat) in BITS_PER_PIXEL
    ensures var bits := BitsPerPixel(TextureFormat(pixelFormat));
      0 < bits <= 128 && bits % 8 == 0
  {
    match pixelFormat
    case Rgba128Float =>
    case Rgba64Half =>
    case Rgba64 =>
    case Rgba32 =>
    case Bgra32 =>
    case Bgr32 =>
    case Rgba1010102XR =>
    case Rgba1010102 =>
    case Bgra5551 =>
    case Bgr565 =>
    case GrayFloat32 =>
    case GrayHalf16 =>
    case Gray16 =>
    case Gray8 =>
    case Alpha8 =>
  }

  /** The bytes of one pixel row: width times bits per pixel in 32-bit unsigned arithmetic, divided by 8. */
  function RowBytes(width: U32, bitsPerPixel: U32): (bytes: U32)
    ensures width * bitsPerPixel < TWO_32 ==> bytes * 8 <= width * bitsPerPixel < bytes * 8 + 8
  {
    var product := ToU32(width * bitsPerPixel);
    assert width * bitsPerPixel < TWO_32 ==> product == width * bitsPerPixel;
    DivBounds(product, 8);
    product / 8
  }

  /** With whole bytes per pixel and no wrap-around, a row is exactly width times the pixel's bytes. */
  lemma RowBytesExact(width: U32, bitsPerPixel: U32)
    requires bitsPerPixel % 8 == 0 && width * bitsPerPixel < TWO_32
    ensures RowBytes(width, bitsPerPixel) == width * (bitsPerPixel / 8)
  {
    var q := bitsPerPixel / 8;
    assert bitsPerPixel == 8 * q;
    assert width * bitsPerPixel == 8 * (width * q);
    MulDiv(width * q, 8);
  }

  /** What LoadTexture sizes: the row pitch, the total size and the zero-filled pixel vector of that size. */
  datatype PixelBuffer = PixelBuffer(bytesPerRow: U32, pixelDataSize: U32, pixelData: seq<bv8>)

  /** The value-initialised bytes of a std::vector<BYTE> of the given size. */
  function Zeroes(size: nat): (bytes: seq<bv8>)
    ensures |bytes| == size && forall i :: 0 <= i < size ==> bytes[i] == 0
  {
    seq(size, _ => 0 as bv8)
  }

  /** The pixel buffer for an image of the given size at the given bits per pixel. */
  function SizePixelBuffer(width: U32, height: U32, bitsPerPixel: U32): (r: PixelBuffer)
    ensures |r.pixelData| == r.pixelDataSize && forall i :: 0 <= i < |r.pixelData| ==> r.pixelData[i] == 0
    ensures width * bitsPerPixel < TWO_32 && bitsPerPixel % 8 == 0 ==>
      r.bytesPerRow == width * (bitsPerPixel / 8) &&
      (r.bytesPerRow * height < TWO_32 ==> r.pixelDataSize == r.bytesPerRow * height)
  {
    var bytesPerRow := RowBytes(width, bitsPerPixel);
    var size := ToU32(bytesPerRow * height);
    assert bytesPerRow * height < TWO_32 ==> size == bytesPerRow * height;
    var buffer := PixelBuffer(bytesPerRow, size, Zeroes(size));
    if width * bitsPerPixel < TWO_32 && bitsPerPixel % 8 == 0 then
      RowBytesExact(width, bitsPerPixel);
      buffer
    else
      buffer
  }

  /**
   * LoadTexture's sizing with the bits per pixel it means: for a known
   * format and an image small enough not to wrap, each row is width times the
   * pixel's bytes and the buffer holds exactly height such rows.
   */
  function TexturePixelBuffer(pixelFormat: WicPixelFormat, width: U32, height: U32): (r: PixelBuffer)
    requires !pixelFormat.OtherPixelFormat?
    ensures |r.pixelData| == r.pixelDataSize
    ensures width * 128 < TWO_32 ==>
      var pixelBytes := BitsPerPixel(TextureFormat(pixelFormat)) / 8;
      r.bytesPerRow == width * pixelBytes && (width * pixelBytes * height < TWO_32 ==> r.pixelDataSize == width * pixelBytes * height)
  {
    SupportedFormatsHaveBits(pixelFormat);
    var bits := BitsPerPixel(TextureFormat(pixelFormat));
    assert width * bits <= width * 128;
    SizePixelBuffer(width, height, bits)
  }

  /**
   * As written, the wrapped bits per pixel make a 1x1 image of the 128-bit
   * format ask for a 536870896-byte row instead of 16 bytes.
   */
  lemma WrappedBitsOversizeTheRow()
    ensures SizePixelBuffer(1, 1, ToU32(GetBitsPerPixel(TextureFormat(Rgba128Float)))).bytesPerRow == 536870896
    ensures TexturePixelBuffer(Rgba128Float, 1, 1).bytesPerRow == 16
  {
    BitsPerPixelWraps();
    assert ToU32(1 * (TWO_32 - 128)) == TWO_32 - 128;
  }

  type U16 = x: int | 0 <= x < 0x1_0000

  /** The eight cube corners the vertex buffer holds. */
  const CUBE_VERTEX_COUNT: nat := 8

  /** The 36 uint16_t cube indices, two triangles per face. */
  const CUBE_INDICES: seq<U16> := [
    0, 1, 2, 0, 2, 3,
    4, 6, 5, 4, 7, 6,
    4, 5, 1, 4, 1, 0,
    3, 2, 6, 3, 6, 7,
    1, 5, 6, 1, 6, 2,
    4, 0, 3, 4, 3, 7]

  /** The index buffer: two bytes per index, default usage. */
  const CUBE_INDEX_BUFFER: BufferDesc := BufferDesc(2 * 36, Default, IndexBufferBind)

  /** Render's index calls: the index buffer read as 16-bit indices, then one draw of every index. */
  function CubeIndexCalls(indexBuffer: Ptr): seq<Call>
  {
    [IASetIndexBuffer(indexBuffer, R16_UINT, 0), DrawIndexed(|CUBE_INDICES|, 0, 0)]
  }

  /**
   * The cube draw reads exactly its index data: 36 indices, each naming one of
   * the 8 vertices, and the buffer holds exactly the 36 two-byte indices drawn.
   */
  lemma {:induction false} CubeDrawReadsEveryIndex(indexBuffer: Ptr)
    ensures |CUBE_INDICES| == 36
    ensures forall i :: 0 <= i < |CUBE_INDICES| ==> CUBE_INDICES[i] < CUBE_VERTEX_COUNT
    ensures CubeIndexCalls(indexBuffer)[1].indexCount == CUBE_INDEX_BUFFER.byteWidth / 2
    ensures CubeIndexCalls(indexBuffer)[0].indexFormat == R16_UINT
  {
    forall i | 0 <= i < |CUBE_INDICES|
      ensures CUBE_INDICES[i] < CUBE_VERTEX_COUNT
    {
    }
  }
}
