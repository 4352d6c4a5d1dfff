/**
 * A pipeline: the shaders, input layout, fixed-function states, viewport and the
 * table of resources that a DeviceContext binds in one go. Pipelines are built
 * by a PipelineFactory and filled in by the application through the Bind and
 * Set methods.
 */
module Pipelines {
  import opened Wrappers
  import opened Ints
  import opened D3D11
  import opened ResourceDescriptors

  /** The descriptor BindTexture builds: value-initialised, then slot and type set. */
  function TextureDescriptor(slotIndex: U32): ResourceDescriptor
  {
    ValueInitialised.(slotIndex := slotIndex, resourceType := Texture)
  }

  /** The descriptor BindSampler builds. */
  function SamplerDescriptor(slotIndex: U32): ResourceDescriptor
  {
    ValueInitialised.(slotIndex := slotIndex, resourceType := Sampler)
  }

  /** The descriptor BindVertexStageConstantBuffer builds. */
  function VertexStageBufferDescriptor(slotIndex: U32): ResourceDescriptor
  {
    ValueInitialised.(slotIndex := slotIndex, stage := VertexStage, resourceType := Buffer)
  }

  /** The viewport SetViewport stores: the given rectangle over the full depth range 0..1. */
  function FullDepthViewport(left: real, top: real, width: real, height: real): Viewport
  {
    Viewport(left, top, width, height, 0.0, 1.0)
  }

  /** Every descriptor the Bind methods build is meant for the vertex stage. */
  lemma BindDescriptorsAreVertexStage(slotIndex: U32)
    ensures TextureDescriptor(slotIndex).stage == VertexStage
    ensures SamplerDescriptor(slotIndex).stage == VertexStage
    ensures VertexStageBufferDescriptor(slotIndex).stage == VertexStage
  {
  }

  /** Every entry of the table was inserted with the vertex stage. */
  ghost predicate AllVertexStage(table: ResourceTable)
  {
    forall k :: k in table ==> table[k].stage == VertexStage
  }

  /**
   * A texture, a sampler and a constant buffer bound to the same slot are three
   * distinct entries: the type is part of the key.
   */
  lemma KindsShareASlot(table: ResourceTable, slotIndex: U32, texture: Ptr, sampler: Ptr, buffer: Ptr)
    ensures var r := Assign(Assign(Assign(table, TextureDescriptor(slotIndex), texture),
                                   SamplerDescriptor(slotIndex), sampler),
                            VertexStageBufferDescriptor(slotIndex), buffer);
      && r[SlotKey(Texture, slotIndex)].resource == texture
      && r[SlotKey(Sampler, slotIndex)].resource == sampler
      && r[SlotKey(Buffer, slotIndex)].resource == buffer
      && r.Keys == table.Keys + {SlotKey(Texture, slotIndex), SlotKey(Sampler, slotIndex), SlotKey(Buffer, slotIndex)}
  {
  }

  /** Rebinding a slot replaces the resource and keeps a single entry for it. */
  lemma RebindReplaces(table: ResourceTable, slotIndex: U32, first: Ptr, second: Ptr)
    ensures Assign(Assign(table, TextureDescriptor(slotIndex), first), TextureDescriptor(slotIndex), second)
         == Assign(table, TextureDescriptor(slotIndex), second)
    ensures Assign(Assign(table, SamplerDescriptor(slotIndex), first), SamplerDescriptor(slotIndex), second)
         == Assign(table, SamplerDescriptor(slotIndex), second)
    ensures Assign(Assign(table, VertexStageBufferDescriptor(slotIndex), first), VertexStageBufferDescriptor(slotIndex), second)
         == Assign(table, VertexStageBufferDescriptor(slotIndex), second)
  {
    SecondAssignOverrides(table, TextureDescriptor(slotIndex), first, TextureDescriptor(slotIndex), second);
    SecondAssignOverrides(table, SamplerDescriptor(slotIndex), first, SamplerDescriptor(slotIndex), second);
    SecondAssignOverrides(table, VertexStageBufferDescriptor(slotIndex), first, VertexStageBufferDescriptor(slotIndex), second);
  }

  class Pipeline {
    var vertexShader: Ptr
    var pixelShader: Ptr
    var inputLayout: Ptr
    var depthStencilState: Ptr
    var rasterizerState: Ptr
    var resources: ResourceTable
    var primitiveTopology: Topology
    var vertexSize: U32
    var viewport: Viewport

    /** Every entry of the resource table is meant for the vertex stage. */
    ghost predicate Valid()
      reads this
    {
      AllVertexStage(resources)
    }

    /** The member initialisers: null objects, an empty table, topology and viewport value-initialised, vertex size 0. */
    constructor ()
      ensures Valid()
      ensures vertexShader == None && pixelShader == None && inputLayout == None
      ensures depthStencilState == None && rasterizerState == None
      ensures resources == map[] && primitiveTopology == Undefined
      ensures vertexSize == 0 && viewport == ZeroViewport
    {
      vertexShader, pixelShader, inputLayout := None, None, None;
      depthStencilState, rasterizerState := None, None;
      resources := map[];
      primitiveTopology := Undefined;
      vertexSize := 0;
      viewport := ZeroViewport;
    }

    method BindTexture(slotIndex: U32, texture: Ptr)
      requires Valid()
      modifies this`resources
      ensures Valid()
      ensures resources == Assign(old(resources), TextureDescriptor(slotIndex), texture)
    {
      resources := Assign(resources, TextureDescriptor(slotIndex), texture);
    }

    method BindSampler(slotIndex: U32, sampler: Ptr)
      requires Valid()
      modifies this`resources
      ensures Valid()
      ensures resources == Assign(old(resources), SamplerDescriptor(slotIndex), sampler)
    {
      resources := Assign(resources, SamplerDescriptor(slotIndex), sampler);
    }

    method BindVertexStageConstantBuffer(slotIndex: U32, buffer: Ptr)
      requires Valid()
      modifies this`resources
      ensures Valid()
      ensures resources == Assign(old(resources), VertexStageBufferDescriptor(slotIndex), buffer)
    {
      resources := Assign(resources, VertexStageBufferDescriptor(slotIndex), buffer);
    }

    /** A later call replaces the whole viewport; the depth range is always 0..1. */
    method SetViewport(left: real, top: real, width: real, height: real)
      modifies this`viewport
      ensures viewport == FullDepthViewport(left, top, width, height)
      ensures viewport.minDepth == 0.0 && viewport.maxDepth == 1.0
    {
      viewport := Viewport(left, top, width, height, 0.0, 1.0);
    }

    method SetDepthStencilState(state: Ptr)
      modifies this`depthStencilState
      ensures depthStencilState == state
    {
      depthStencilState := state;
    }

    method SetRasterizerState(state: Ptr)
      modifies this`rasterizerState
      ensures rasterizerState == state
    {
      rasterizerState := state;
    }
  }

  /** Two SetViewport calls in a row: the second alone decides the viewport, and repeating it changes nothing. */
  method SetViewportTwice(p: Pipeline, first: Viewport, left: real, top: real, width: real, height: real)
    modifies p`viewport
    ensures p.viewport == FullDepthViewport(left, top, width, height)
  {
    p.SetViewport(first.topLeftX, first.topLeftY, first.width, first.height);
    p.SetViewport(left, top, width, height);
    var once := p.viewport;
    p.SetViewport(left, top, width, height);
    assert p.viewport == once;
  }
}
