/**
 * What every DeviceContext variant shares: the four calls that install a
 * pipeline's shaders and input assembly, and the draw counts derived from a
 * buffer's byte width.
 */
module DeviceContextCommon {
  import opened Wrappers
  import opened Ints
  import opened D3D11
  import opened Pipelines

  /** IASetInputLayout, IASetPrimitiveTopology, VSSetShader, PSSetShader with the pipeline's objects. */
  function ShaderCalls(p: Pipeline): seq<Call>
    reads p
  {
    [IASetInputLayout(p.inputLayout), IASetPrimitiveTopology(p.primitiveTopology),
     VSSetShader(p.vertexShader), PSSetShader(p.pixelShader)]
  }

  /** The bindings once those four calls are made: input layout, topology and both shaders are the pipeline's. */
  function ShadersBound(b: Bindings, p: Pipeline): Bindings
    reads p
  {
    b.(inputLayout := p.inputLayout, topology := p.primitiveTopology,
       vertexShader := p.vertexShader, pixelShader := p.pixelShader)
  }

  /** The four calls issued in order: they install exactly the pipeline's shaders and input assembly. */
  function InstallShaders(ctx: Context, p: Pipeline): (r: Context)
    reads p
    ensures r.bindings == ShadersBound(ctx.bindings, p)
    ensures r.trace == ctx.trace + ShaderCalls(p)
  {
    var c1 := Issue(ctx, IASetInputLayout(p.inputLayout));
    var c2 := Issue(c1, IASetPrimitiveTopology(p.primitiveTopology));
    var c3 := Issue(c2, VSSetShader(p.vertexShader));
    Issue(c3, PSSetShader(p.pixelShader))
  }

  /** The vertex count of a draw: the buffer's byte width divided by the active pipeline's vertex size, so every whole vertex the buffer holds. */
  function DrawVertexCount(byteWidth: U32, vertexSize: U32): (count: U32)
    requires vertexSize != 0
    ensures count * vertexSize <= byteWidth < (count + 1) * vertexSize
  {
    DivBounds(byteWidth, vertexSize);
    byteWidth / vertexSize
  }

  /** The index count of a draw: the buffer's byte width divided by four, so every whole 32-bit index the buffer holds. */
  function DrawIndexCount(byteWidth: U32): (count: U32)
    ensures count * 4 <= byteWidth < (count + 1) * 4
  {
    byteWidth / 4
  }

  /** A buffer made for n vertices of the pipeline's size gives back exactly n, as long as its byte width did not wrap. */
  lemma VertexCountRoundTrip(n: nat, vertexSize: U32)
    requires vertexSize != 0 && vertexSize * n < TWO_32
    ensures DrawVertexCount(ToU32(vertexSize * n), vertexSize) == n
  {
    MulDiv(n, vertexSize);
  }

  /** A buffer made for n 32-bit indices gives back exactly n, as long as its byte width did not wrap. */
  lemma IndexCountRoundTrip(n: nat)
    requires 4 * n < TWO_32
    ensures DrawIndexCount(ToU32(4 * n)) == n
  {
  }

  /** Binding one vertex buffer at slot 0 with the active pipeline's vertex size as its stride. */
  function VertexBufferCall(buffer: GpuBuffer, vertexSize: U32, offset: U32): Call
  {
    IASetVertexBuffers(0, Some(buffer.handle), vertexSize, offset)
  }

  /** Binding an index buffer of 32-bit unsigned indices. */
  function IndexBufferCall(buffer: GpuBuffer, offset: U32): Call
  {
    IASetIndexBuffer(Some(buffer.handle), R32_UINT, offset)
  }

  /** Clearing the render target without a depth buffer: clear, then bind it alone. */
  function ClearCalls(renderTarget: Ptr, clearColor: seq<real>): seq<Call>
  {
    [ClearRenderTargetView(renderTarget, clearColor), OMSetRenderTargets([renderTarget], None)]
  }
}
