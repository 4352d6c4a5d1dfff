/**
 * The part of the Direct3D 11 immediate context that the tutorial code drives,
 * seen from outside: the objects the code hands around are opaque handles, the
 * context is a record of what is currently bound plus the trace of every call
 * made on it, and the device's factory functions are oracles supplied by the
 * caller (they may fail, which the code checks with FAILED).
 */
module D3D11 {
  import opened Wrappers
  import opened Ints

  /** A COM object created by the device (shader, view, state, buffer, ...). */
  datatype Handle = Handle(id: nat)

  /** A raw or ComPtr pointer to such an object; None is nullptr. */
  type Ptr = Option<Handle>

  /** Compiled shader bytecode (ID3DBlob). */
  datatype Blob = Blob(id: nat)

  datatype Format =
    | UNKNOWN
    | R32G32B32A32_FLOAT | R16G16B16A16_FLOAT | R16G16B16A16_UNORM
    | R8G8B8A8_UNORM | B8G8R8A8_UNORM | B8G8R8X8_UNORM
    | R10G10B10_XR_BIAS_A2_UNORM | R10G10B10A2_UNORM
    | B5G5R5A1_UNORM | B5G6R5_UNORM
    | R32_FLOAT | R16_FLOAT | R16_UNORM | R8_UNORM | A8_UNORM
    | R8G8_UNORM
    | R32G32B32_FLOAT | R32G32_FLOAT
    | R32_UINT | R16_UINT

  /** D3D11_PRIMITIVE_TOPOLOGY; a value-initialised topology is UNDEFINED. */
  datatype Topology = Undefined | TriangleList

  /** D3D11_VIEWPORT; the float fields are stored, never computed with. */
  datatype Viewport = Viewport(
    topLeftX: real, topLeftY: real, width: real, height: real,
    minDepth: real, maxDepth: real)

  /** A value-initialised D3D11_VIEWPORT. */
  const ZeroViewport := Viewport(0.0, 0.0, 0.0, 0.0, 0.0, 0.0)

  datatype Usage = Default | Immutable | Dynamic | Staging
  datatype BindFlag = VertexBufferBind | IndexBufferBind | ConstantBufferBind | ShaderResourceBind

  /** The fields of D3D11_BUFFER_DESC that the code sets. */
  datatype BufferDesc = BufferDesc(byteWidth: U32, usage: Usage, bindFlags: BindFlag)

  /** An ID3D11Buffer together with the description GetDesc reports for it. */
  datatype GpuBuffer = GpuBuffer(handle: Handle, desc: BufferDesc)

  /** The buffer seen as a plain pointer, as when it is stored as an ID3D11DeviceChild*. */
  function AsPtr(b: Option<GpuBuffer>): (p: Ptr)
    ensures p.Some? <==> b.Some?
    ensures b.Some? ==> p.value == b.value.handle
  {
    match b
    case None => None
    case Some(buffer) => Some(buffer.handle)
  }

  datatype InputClassification = PerVertexData | PerInstanceData

  /** D3D11_INPUT_ELEMENT_DESC */
  datatype InputElementDesc = InputElementDesc(
    semanticName: string, semanticIndex: nat, format: Format, inputSlot: nat,
    alignedByteOffset: nat, inputSlotClass: InputClassification, instanceDataStepRate: nat)

  datatype ComparisonFunc = Never | Less | Equal | LessEqual | Greater | NotEqual | GreaterEqual | Always
  datatype DepthWriteMask = WriteMaskZero | WriteMaskAll

  /** The fields of D3D11_DEPTH_STENCIL_DESC that the code sets. */
  datatype DepthStencilDesc = DepthStencilDesc(
    depthEnable: bool, depthWriteMask: DepthWriteMask, depthFunc: ComparisonFunc, stencilEnable: bool)

  datatype Filter = MinMagLinearMipPoint | MinMagMipLinear | MinMagMipPoint
  datatype AddressMode = Wrap | Clamp | Mirror

  /** The fields of D3D11_SAMPLER_DESC that the code sets. */
  datatype SamplerDesc = SamplerDesc(filter: Filter, addressU: AddressMode, addressV: AddressMode, addressW: AddressMode)

  /** The fields of D3D11_TEXTURE2D_DESC that the code sets, and the row pitch of the initial data. */
  datatype Texture2DDesc = Texture2DDesc(
    width: U32, height: U32, format: Format, arraySize: nat, mipLevels: nat,
    usage: Usage, bindFlags: BindFlag, rowPitch: U32)

  /**
   * The device: every factory method the code calls, as an oracle.
   * A None result is a failed HRESULT (the out-pointer is left null).
   */
  datatype Device = Device(
    compileFromFile: (string, string, string) -> Option<Blob>,
    createVertexShader: Blob -> Ptr,
    createPixelShader: Blob -> Ptr,
    createInputLayout: (seq<InputElementDesc>, Blob) -> Ptr,
    createBuffer: BufferDesc -> Ptr,
    createDepthStencilState: DepthStencilDesc -> Ptr,
    createSamplerState: SamplerDesc -> Ptr,
    createTexture2D: Texture2DDesc -> Ptr,
    createShaderResourceView: (Handle, Format) -> Ptr)

  /** ID3D11Device::CreateBuffer with the buffer's description kept beside its handle. */
  function CreateBuffer(device: Device, desc: BufferDesc): (r: Option<GpuBuffer>)
    ensures r.Some? <==> device.createBuffer(desc).Some?
    ensures r.Some? ==> r.value.desc == desc && Some(r.value.handle) == device.createBuffer(desc)
  {
    match device.createBuffer(desc)
    case None => None
    case Some(h) => Some(GpuBuffer(h, desc))
  }

  /** One call on ID3D11DeviceContext, with the arguments that matter. */
  datatype Call =
    | ClearRenderTargetView(renderTarget: Ptr, color: seq<real>)
    | ClearDepthStencilView(depthStencilView: Handle, clearDepth: bool, clearStencil: bool, depth: real, stencil: U32)
    | OMSetRenderTargets(renderTargets: seq<Ptr>, depthStencil: Ptr)
    | IASetInputLayout(inputLayout: Ptr)
    | IASetPrimitiveTopology(topology: Topology)
    | VSSetShader(vertexShader: Ptr)
    | PSSetShader(pixelShader: Ptr)
    | PSSetSamplers(samplerSlot: nat, samplers: seq<Ptr>)
    | PSSetShaderResources(resourceSlot: nat, views: seq<Ptr>)
    | VSSetConstantBuffers(vsBufferSlot: nat, vsBuffers: seq<Ptr>)
    | PSSetConstantBuffers(psBufferSlot: nat, psBuffers: seq<Ptr>)
    | OMSetDepthStencilState(depthStencilState: Ptr, stencilRef: U32)
    | RSSetState(rasterizerState: Ptr)
    | RSSetViewports(viewports: seq<Viewport>)
    | IASetVertexBuffers(vertexSlot: nat, vertexBuffer: Ptr, stride: U32, offset: U32)
    | IASetIndexBuffer(indexBuffer: Ptr, indexFormat: Format, indexOffset: U32)
    | UpdateSubresource(destination: Ptr, data: nat)
    | Draw(vertexCount: U32, startVertex: U32)
    | DrawIndexed(indexCount: U32, startIndex: U32, baseVertex: I32)
    | Flush

  datatype VertexBinding = VertexBinding(buffer: Ptr, stride: U32, offset: U32)
  datatype IndexBinding = IndexBinding(buffer: Ptr, format: Format, offset: U32)

  /** The per-stage slot tables: pixel-shader samplers and views, vertex- and pixel-shader constant buffers. */
  datatype SlotTable = PsSamplers | PsShaderResources | VsConstantBuffers | PsConstantBuffers

  /** One slot of one of those tables. */
  datatype BindingPoint = BindingPoint(table: SlotTable, slot: nat)

  /** What is bound on the context. */
  datatype Bindings = Bindings(
    inputLayout: Ptr,
    topology: Topology,
    vertexShader: Ptr,
    pixelShader: Ptr,
    slots: map<BindingPoint, Ptr>,
    depthStencilState: Ptr,
    stencilRef: U32,
    rasterizerState: Ptr,
    viewports: seq<Viewport>,
    vertexBuffers: map<nat, VertexBinding>,
    indexBuffer: Option<IndexBinding>,
    renderTargets: seq<Ptr>,
    depthStencilView: Ptr)

  /** The immediate context: its bindings and every call made on it so far. */
  datatype Context = Context(bindings: Bindings, trace: seq<Call>)

  /** Writes the items into consecutive slots of one slot table, starting at slot start. */
  function SetSlots(slots: map<BindingPoint, Ptr>, table: SlotTable, start: nat, items: seq<Ptr>): map<BindingPoint, Ptr>
    decreases |items|
  {
    if items == [] then slots
    else SetSlots(slots[BindingPoint(table, start) := items[0]], table, start + 1, items[1..])
  }

  /**
   * The slots start .. start + |items| - 1 of the table hold the items in
   * order; every other point keeps what it held, and no other point appears.
   */
  lemma {:induction false} SetSlotsWrites(slots: map<BindingPoint, Ptr>, table: SlotTable, start: nat, items: seq<Ptr>)
    ensures var r := SetSlots(slots, table, start, items);
      && (forall p: BindingPoint :: p.table == table && start <= p.slot < start + |items| ==> p in r && r[p] == items[p.slot - start])
      && (forall p :: p in slots && !(p.table == table && start <= p.slot < start + |items|) ==> p in r && r[p] == slots[p])
      && (forall p :: p in r ==> p in slots || (p.table == table && start <= p.slot < start + |items|))
    decreases |items|
  {
    if items != [] {
      SetSlotsWrites(slots[BindingPoint(table, start) := items[0]], table, start + 1, items[1..]);
      assert forall i :: 0 <= i < |items| - 1 ==> items[1..][i] == items[i + 1];
    }
  }

  /** The effect of one call on the bindings; draws, clears, updates and flushes bind nothing. */
  function Apply(b: Bindings, c: Call): Bindings
  {
    match c
    case OMSetRenderTargets(rts, dsv) => b.(renderTargets := rts, depthStencilView := dsv)
    case IASetInputLayout(l) => b.(inputLayout := l)
    case IASetPrimitiveTopology(t) => b.(topology := t)
    case VSSetShader(s) => b.(vertexShader := s)
    case PSSetShader(s) => b.(pixelShader := s)
    case PSSetSamplers(slot, items) => b.(slots := SetSlots(b.slots, PsSamplers, slot, items))
    case PSSetShaderResources(slot, items) => b.(slots := SetSlots(b.slots, PsShaderResources, slot, items))
    case VSSetConstantBuffers(slot, items) => b.(slots := SetSlots(b.slots, VsConstantBuffers, slot, items))
    case PSSetConstantBuffers(slot, items) => b.(slots := SetSlots(b.slots, PsConstantBuffers, slot, items))
    case OMSetDepthStencilState(s, ref) => b.(depthStencilState := s, stencilRef := ref)
    case RSSetState(s) => b.(rasterizerState := s)
    case RSSetViewports(vps) => b.(viewports := vps)
    case IASetVertexBuffers(slot, buffer, stride, offset) =>
      b.(vertexBuffers := b.vertexBuffers[slot := VertexBinding(buffer, stride, offset)])
    case IASetIndexBuffer(buffer, format, offset) => b.(indexBuffer := Some(IndexBinding(buffer, format, offset)))
    case _ => b
  }

  /** Issuing a call: the bindings take its effect and the trace records it. */
  function Issue(ctx: Context, c: Call): Context
  {
    Context(Apply(ctx.bindings, c), ctx.trace + [c])
  }
}
