/**
 * The texturing chapter's pipeline, keyed by the two-field descriptor of the
 * image-library chapter: a resource type and a slot, compared in full. Unlike
 * the later three-field key there is no stage, so the table is a plain map.
 */
module TexturingPipelines {
  import opened Wrappers
  import opened Ints
  import opened D3D11
  import RD = ResourceDescriptors
  import P = Pipelines

  datatype ResourceDescriptor = ResourceDescriptor(resourceType: RD.ResourceType, slotIndex: U32)

  /** std::equal_to<ResourceDescriptor>: both fields. */
  predicate Equal(lhs: ResourceDescriptor, rhs: ResourceDescriptor)
  {
    lhs.slotIndex == rhs.slotIndex && lhs.resourceType == rhs.resourceType
  }

  /** std::hash<ResourceDescriptor>: the same slot-and-type hash as the three-field key. */
  function Hash(d: ResourceDescriptor): nat
  {
    RD.KeyHash(d.resourceType, d.slotIndex)
  }

  /** The equality is the full structural one, so the map can use the descriptor itself as its key. */
  lemma EqualIsIdentity(a: ResourceDescriptor, b: ResourceDescriptor)
    ensures Equal(a, b) <==> a == b
  {
  }

  /** The hash agrees with the equality in both directions: equal keys hash alike and distinct keys never collide. */
  lemma HashMatchesEqual(a: ResourceDescriptor, b: ResourceDescriptor)
    ensures Hash(a) == Hash(b) <==> Equal(a, b)
  {
    RD.HashFields(a.resourceType, a.slotIndex);
    RD.HashFields(b.resourceType, b.slotIndex);
    if Hash(a) == Hash(b) {
      assert RD.TypeCode(a.resourceType) == RD.TypeCode(b.resourceType);
    }
  }

  /** A texture and a sampler in the same slot are different keys with different hashes. */
  lemma SameSlotDistinctTypes(slotIndex: U32)
    ensures !Equal(ResourceDescriptor(RD.Texture, slotIndex), ResourceDescriptor(RD.Sampler, slotIndex))
    ensures Hash(ResourceDescriptor(RD.Texture, slotIndex)) != Hash(ResourceDescriptor(RD.Sampler, slotIndex))
  {
    HashMatchesEqual(ResourceDescriptor(RD.Texture, slotIndex), ResourceDescriptor(RD.Sampler, slotIndex));
  }

  type ResourceTable = map<ResourceDescriptor, Ptr>

  /** A texture and a sampler bound to the same slot coexist, and the texture is not overwritten. */
  lemma TextureAndSamplerCoexist(table: ResourceTable, slotIndex: U32, texture: Ptr, sampler: Ptr)
    ensures var r := table[ResourceDescriptor(RD.Texture, slotIndex) := texture][ResourceDescriptor(RD.Sampler, slotIndex) := sampler];
      && r[ResourceDescriptor(RD.Texture, slotIndex)] == texture
      && r[ResourceDescriptor(RD.Sampler, slotIndex)] == sampler
      && r.Keys == table.Keys + {ResourceDescriptor(RD.Texture, slotIndex), ResourceDescriptor(RD.Sampler, slotIndex)}
  {
  }

  class Pipeline {
    var vertexShader: Ptr
    var pixelShader: Ptr
    var inputLayout: Ptr
    var resources: ResourceTable
    var primitiveTopology: Topology
    var vertexSize: U32
    var viewport: Viewport

    /** The member initialisers: null objects, an empty table, topology and viewport value-initialised, vertex size 0. */
    constructor ()
      ensures vertexShader == None && pixelShader == None && inputLayout == None
      ensures resources == map[] && primitiveTopology == Undefined
      ensures vertexSize == 0 && viewport == ZeroViewport
    {
      vertexShader, pixelShader, inputLayout := None, None, None;
      resources := map[];
      primitiveTopology := Undefined;
      vertexSize := 0;
      viewport := ZeroViewport;
    }

    /** Binds the texture at (Texture, slot), replacing any earlier one; every other entry is kept. */
    method BindTexture(slotIndex: U32, texture: Ptr)
      modifies this`resources
      ensures resources == old(resources)[ResourceDescriptor(RD.Texture, slotIndex) := texture]
      ensures |resources| == if ResourceDescriptor(RD.Texture, slotIndex) in old(resources) then |old(resources)| else |old(resources)| + 1
    {
      var descriptor := ResourceDescriptor(RD.Texture, slotIndex);
      resources := resources[descriptor := texture];
    }

    /** Binds the sampler at (Sampler, slot), replacing any earlier one; every other entry is kept. */
    method BindSampler(slotIndex: U32, sampler: Ptr)
      modifies this`resources
      ensures resources == old(resources)[ResourceDescriptor(RD.Sampler, slotIndex) := sampler]
      ensures |resources| == if ResourceDescriptor(RD.Sampler, slotIndex) in old(resources) then |old(resources)| else |old(resources)| + 1
    {
      var descriptor := ResourceDescriptor(RD.Sampler, slotIndex);
      resources := resources[descriptor := sampler];
    }

    /** Stores the rectangle over the depth range 0..1 and touches no resource entry. */
    method SetViewport(left: real, top: real, width: real, height: real)
      modifies this`viewport
      ensures viewport == P.FullDepthViewport(left, top, width, height)
      ensures viewport.minDepth == 0.0 && viewport.maxDepth == 1.0
    {
      viewport := Viewport(left, top, width, height, 0.0, 1.0);
    }
  }
}
