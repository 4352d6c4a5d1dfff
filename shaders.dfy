/**
 * Shader compilation and creation as done by every factory here: a shader is
 * compiled from a file with entry point "Main" and profile vs_5_0 or ps_5_0,
 * then created on the device; any failure yields a null shader. The compiler
 * and the device are oracles.
 */
module Shaders {
  import opened Wrappers
  import opened D3D11

  const ENTRY_POINT: string := "Main"
  const VERTEX_PROFILE: string := "vs_5_0"
  const PIXEL_PROFILE: string := "ps_5_0"

  /** The success flag of CompileShader and the blob it leaves in its out-parameter. */
  datatype CompileOutcome = CompileOutcome(ok: bool, blob: Option<Blob>)

  /**
   * CompileShader: on success the out-parameter receives the compiled blob; on
   * failure the result is false and the out-parameter keeps what it held.
   */
  function CompileShader(device: Device, filePath: string, entryPoint: string, profile: string, shaderBlob: Option<Blob>): (r: CompileOutcome)
    ensures r.ok <==> device.compileFromFile(filePath, entryPoint, profile).Some?
    ensures r.ok ==> r.blob == device.compileFromFile(filePath, entryPoint, profile)
    ensures !r.ok ==> r.blob == shaderBlob
  {
    match device.compileFromFile(filePath, entryPoint, profile)
    case None => CompileOutcome(false, shaderBlob)
    case Some(compiled) => CompileOutcome(true, Some(compiled))
  }

  /** The vertex shader a factory creates, and the blob it leaves behind for the input layout. */
  datatype VertexShaderOutcome = VertexShaderOutcome(shader: Ptr, blob: Option<Blob>)

  /** Whether the vertex shader file compiles: the input layout needs its blob. */
  predicate VertexShaderCompiles(device: Device, filePath: string)
  {
    device.compileFromFile(filePath, ENTRY_POINT, VERTEX_PROFILE).Some?
  }

  /**
   * CreateVertexShader, called with a null blob: null when compilation fails
   * (and the blob stays null), otherwise the device's shader for the blob,
   * which may itself be null.
   */
  function CreateVertexShader(device: Device, filePath: string): (r: VertexShaderOutcome)
    ensures r.blob.Some? <==> VertexShaderCompiles(device, filePath)
    ensures r.blob.Some? ==> r.shader == device.createVertexShader(r.blob.value)
    ensures r.blob.None? ==> r.shader == None
  {
    var compiled := CompileShader(device, filePath, ENTRY_POINT, VERTEX_PROFILE, None);
    if compiled.ok then VertexShaderOutcome(device.createVertexShader(compiled.blob.value), compiled.blob)
    else VertexShaderOutcome(None, compiled.blob)
  }

  /** CreatePixelShader: null when compilation fails, otherwise the device's shader for the blob. */
  function CreatePixelShader(device: Device, filePath: string): (shader: Ptr)
    ensures device.compileFromFile(filePath, ENTRY_POINT, PIXEL_PROFILE).None? ==> shader == None
    ensures device.compileFromFile(filePath, ENTRY_POINT, PIXEL_PROFILE).Some? ==>
      shader == device.createPixelShader(device.compileFromFile(filePath, ENTRY_POINT, PIXEL_PROFILE).value)
  {
    var compiled := CompileShader(device, filePath, ENTRY_POINT, PIXEL_PROFILE, None);
    if compiled.ok then device.createPixelShader(compiled.blob.value) else None
  }
}
