/**
 * The texture creation of the 3D-setup chapter: a FreeImage bitmap's bit count
 * chooses the DXGI format (24-bit images are widened to 32 bits first), the
 * texture description and row pitch follow from it, and Load falls back to the
 * default texture's view when the DDS view cannot be made.
 */
module Setting3D {
  import opened Wrappers
  import opened Ints
  import opened D3D11

  /** What CreateTextureView reads from a decoded, flipped FreeImage bitmap. */
  datatype Bitmap = Bitmap(width: U32, height: U32, bitsPerPixel: U32)

  /** The format a bit count selects, and the bit count of the pixels that are uploaded. */
  datatype TextureChoice = TextureChoice(format: Format, bitsPerPixel: U32)

  /** The bits of one texel of the uncompressed UNORM formats, independent of the choice below. */
  function FormatBits(format: Format): nat
  {
    match format
    case R8_UNORM => 8
    case R8G8_UNORM => 16
    case R8G8B8A8_UNORM => 32
    case _ => 0
  }

  /**
   * The switch on the bitmap's bit count: 8, 16 and 32 bits keep their data, 24
   * bits are converted to 32 bits, and every other count is refused.
   */
  function ChooseFormat(bitsPerPixel: U32): (r: Option<TextureChoice>)
    ensures r.None? <==> bitsPerPixel !in {8, 16, 24, 32}
    ensures r.Some? ==> r.value.bitsPerPixel == if bitsPerPixel == 24 then 32 else bitsPerPixel
    ensures r.Some? ==> FormatBits(r.value.format) == r.value.bitsPerPixel
  {
    if bitsPerPixel == 8 then Some(TextureChoice(R8_UNORM, 8))
    else if bitsPerPixel == 16 then Some(TextureChoice(R8G8_UNORM, 16))
    else if bitsPerPixel == 24 then Some(TextureChoice(R8G8B8A8_UNORM, 32))
    else if bitsPerPixel == 32 then Some(TextureChoice(R8G8B8A8_UNORM, 32))
    else None
  }

  /** Only three formats can come out, and 24 and 32 bits share one. */
  lemma ChosenFormats(bitsPerPixel: U32)
    requires ChooseFormat(bitsPerPixel).Some?
    ensures ChooseFormat(bitsPerPixel).value.format in {R8_UNORM, R8G8_UNORM, R8G8B8A8_UNORM}
    ensures bitsPerPixel in {24, 32} <==> ChooseFormat(bitsPerPixel).value.format == R8G8B8A8_UNORM
  {
  }

  /** The description of the texture: one immutable, single-mip shader resource with the upload's row pitch. */
  function TextureDescFor(bitmap: Bitmap, choice: TextureChoice): (desc: Texture2DDesc)
    ensures desc.width == bitmap.width && desc.height == bitmap.height && desc.format == choice.format
    ensures desc.arraySize == 1 && desc.mipLevels == 1 && desc.usage == Immutable && desc.bindFlags == ShaderResourceBind
    ensures (choice.bitsPerPixel / 8) * bitmap.width < TWO_32 ==> desc.rowPitch == (choice.bitsPerPixel / 8) * bitmap.width
  {
    Texture2DDesc(bitmap.width, bitmap.height, choice.format, 1, 1, Immutable, ShaderResourceBind,
      ToU32((choice.bitsPerPixel / 8) * bitmap.width))
  }

  /**
   * CreateTextureView from the bitmap on: None as input stands for a file that
   * cannot be opened or read, or an image type FreeImage does not recognise.
   */
  function CreateTextureView(device: Device, bitmap: Option<Bitmap>): (srv: Ptr)
    ensures bitmap.None? ==> srv.None?
    ensures bitmap.Some? && ChooseFormat(bitmap.value.bitsPerPixel).None? ==> srv.None?
    ensures srv.Some? ==>
      && bitmap.Some? && ChooseFormat(bitmap.value.bitsPerPixel).Some?
      && var choice := ChooseFormat(bitmap.value.bitsPerPixel).value;
         var texture := device.createTexture2D(TextureDescFor(bitmap.value, choice));
         texture.Some? && srv == device.createShaderResourceView(texture.value, choice.format)
    ensures bitmap.Some? && ChooseFormat(bitmap.value.bitsPerPixel).Some? ==>
      var choice := ChooseFormat(bitmap.value.bitsPerPixel).value;
      var texture := device.createTexture2D(TextureDescFor(bitmap.value, choice));
      srv == if texture.Some? then device.createShaderResourceView(texture.value, choice.format) else None
  {
    if bitmap.None? then None
    else
      match ChooseFormat(bitmap.value.bitsPerPixel)
      case None => None
      case Some(choice) =>
        match device.createTexture2D(TextureDescFor(bitmap.value, choice))
        case None => None
        case Some(texture) => device.createShaderResourceView(texture, choice.format)
  }

  /**
   * The row pitch describes whole rows of the uploaded texels: for every
   * accepted bit count it is the width times the texel size of the chosen
   * format, so a 24-bit image, once widened, gets four bytes per texel.
   */
  lemma PitchMatchesFormat(bitmap: Bitmap)
    requires ChooseFormat(bitmap.bitsPerPixel).Some? && 4 * bitmap.width < TWO_32
    ensures var choice := ChooseFormat(bitmap.bitsPerPixel).value;
      TextureDescFor(bitmap, choice).rowPitch == (FormatBits(choice.format) / 8) * bitmap.width
    ensures bitmap.bitsPerPixel == 24 ==>
      TextureDescFor(bitmap, ChooseFormat(bitmap.bitsPerPixel).value).rowPitch == 4 * bitmap.width
  {
    var choice := ChooseFormat(bitmap.bitsPerPixel).value;
    assert choice.bitsPerPixel / 8 <= 4;
    assert (choice.bitsPerPixel / 8) * bitmap.width <= 4 * bitmap.width;
  }

  /** The two views Load ends up with. */
  datatype LoadedTextures = LoadedTextures(fallbackTextureSrv: Ptr, textureSrv: Ptr)

  /**
   * Load's texture step: the default texture's view is made first, and the
   * DDS view is used when it loads, otherwise the fallback view.
   */
  function LoadTextures(device: Device, defaultBitmap: Option<Bitmap>, ddsView: Ptr): (r: LoadedTextures)
    ensures r.fallbackTextureSrv == CreateTextureView(device, defaultBitmap)
    ensures ddsView.Some? ==> r.textureSrv == ddsView
    ensures ddsView.None? ==> r.textureSrv == r.fallbackTextureSrv
    ensures r.fallbackTextureSrv.Some? ==> r.textureSrv.Some?
  {
    var fallback := CreateTextureView(device, defaultBitmap);
    LoadedTextures(fallback, if ddsView.None? then fallback else ddsView)
  }
}
