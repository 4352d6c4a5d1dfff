/**
 * The key of a pipeline's resource table: a resource type, the stage it is
 * meant for and a slot. The table is a std::unordered_map whose equality and
 * hash look at the type and the slot only, so two descriptors that differ only
 * in their stage are the same key.
 */
module ResourceDescriptors {
  import opened Ints
  import opened D3D11

  datatype ResourceType = Texture | Sampler | Buffer
  datatype ResourceStage = VertexStage | PixelStage

  datatype ResourceDescriptor = ResourceDescriptor(resourceType: ResourceType, stage: ResourceStage, slotIndex: U32)

  /** `ResourceDescriptor descriptor = {};` : every field zero, so Texture, VertexStage, slot 0. */
  const ValueInitialised := ResourceDescriptor(Texture, VertexStage, 0)

  /** The underlying uint32_t of the enum class (declaration order). */
  function TypeCode(t: ResourceType): (c: U32)
    ensures c < 3
  {
    match t
    case Texture => 0
    case Sampler => 1
    case Buffer => 2
  }

  /** std::equal_to<ResourceDescriptor>: slot and type only. */
  predicate Equal(lhs: ResourceDescriptor, rhs: ResourceDescriptor)
  {
    lhs.slotIndex == rhs.slotIndex && lhs.resourceType == rhs.resourceType
  }

  /** 2^64: uint64_t and size_t wrap here. */
  const TWO_64: int := 0x1_0000_0000_0000_0000

  /** The lowest bit of an unsigned integer. */
  function Bit(a: nat): nat { a % 2 }

  /** Bitwise exclusive-or of two unsigned integers, bit by bit from the lowest. */
  function Xor(a: nat, b: nat): nat
    decreases a + b
  {
    if a == 0 && b == 0 then 0 else 2 * Xor(a / 2, b / 2) + (if Bit(a) == Bit(b) then 0 else 1)
  }

  function Pow2(k: nat): nat
  {
    if k == 0 then 1 else 2 * Pow2(k - 1)
  }

  lemma {:induction false} Pow2Add(k: nat, l: nat)
    ensures Pow2(k + l) == Pow2(k) * Pow2(l)
    decreases k
  {
    if k > 0 {
      Pow2Add(k - 1, l);
      assert Pow2(k + l) == 2 * Pow2(k - 1 + l);
    }
  }

  lemma Pow2Of32()
    ensures Pow2(32) == TWO_32
  {
    assert Pow2(2) == 4;
    Pow2Add(2, 2);
    Pow2Add(4, 4);
    Pow2Add(8, 8);
    Pow2Add(16, 16);
  }

  /**
   * std::hash<ResourceDescriptor>: the slot widened to uint64_t and shifted
   * into the upper 32 bits, exclusive-or the type code. std::hash<uint64_t> is
   * taken as the identity (as in libstdc++ and libc++).
   */
  function Hash(d: ResourceDescriptor): nat
  {
    KeyHash(d.resourceType, d.slotIndex)
  }

  /** The hash of a (type, slot) pair, shared by both descriptor layouts. */
  function KeyHash(t: ResourceType, slotIndex: U32): nat
  {
    Xor((slotIndex * TWO_32) % TWO_64, TypeCode(t))
  }

  lemma {:induction false} XorZero(a: nat)
    ensures Xor(a, 0) == a
    decreases a
  {
    if a != 0 {
      XorZero(a / 2);
      assert Bit(0) == 0;
    }
  }

  lemma XorEven(m: nat, c: nat)
    ensures Xor(2 * m, c) == 2 * Xor(m, c / 2) + c % 2
  {
    var x := 2 * m;
    assert x / 2 == m;
    assert Bit(x) == 0;
    assert c % 2 == 0 || c % 2 == 1;
  }

  /** Exclusive-or with a value that fits below bit k of a multiple of 2^k is addition. */
  lemma {:induction false} XorDisjoint(a: nat, c: nat, k: nat)
    requires c < Pow2(k)
    ensures Xor(a * Pow2(k), c) == a * Pow2(k) + c
    decreases k
  {
    if k == 0 {
      XorZero(a);
    } else {
      var p := Pow2(k - 1);
      DoubleFactor(a, p);
      var m: nat := a * p;
      assert a * Pow2(k) == 2 * m;
      XorDisjoint(a, c / 2, k - 1);
      assert Xor(m, c / 2) == m + c / 2;
      XorEven(m, c);
      assert Xor(2 * m, c) == 2 * (m + c / 2) + c % 2;
    }
  }

  lemma DoubleFactor(a: nat, p: nat)
    ensures 0 <= a * p && a * (2 * p) == 2 * (a * p)
  {
  }

  /** The hash keeps both fields apart: the upper 32 bits are the slot, the lower 32 bits the type. */
  lemma HashFields(t: ResourceType, slotIndex: U32)
    ensures KeyHash(t, slotIndex) == slotIndex * TWO_32 + TypeCode(t)
    ensures KeyHash(t, slotIndex) / TWO_32 == slotIndex && KeyHash(t, slotIndex) % TWO_32 == TypeCode(t)
  {
    var s, c := slotIndex, TypeCode(t);
    Pow2Of32();
    SplitWord(s, c);
    XorDisjoint(s, c, 32);
  }

  /** A 64-bit word made of an upper and a lower 32-bit half. */
  lemma SplitWord(s: int, c: int)
    requires 0 <= s < TWO_32 && 0 <= c < TWO_32
    ensures s * TWO_32 < TWO_64 && (s * TWO_32) % TWO_64 == s * TWO_32
    ensures (s * TWO_32 + c) / TWO_32 == s && (s * TWO_32 + c) % TWO_32 == c
  {
  }

  /** The hash agrees with the equality, in both directions: equal keys hash alike and distinct keys never collide. */
  lemma HashMatchesEqual(a: ResourceDescriptor, b: ResourceDescriptor)
    ensures Hash(a) == Hash(b) <==> Equal(a, b)
  {
    HashFields(a.resourceType, a.slotIndex);
    HashFields(b.resourceType, b.slotIndex);
    if Hash(a) == Hash(b) {
      assert TypeCode(a.resourceType) == TypeCode(b.resourceType);
    }
  }

  /** Equal is an equivalence relation, as an unordered_map key equality must be. */
  lemma EqualIsEquivalence(a: ResourceDescriptor, b: ResourceDescriptor, c: ResourceDescriptor)
    ensures Equal(a, a)
    ensures Equal(a, b) ==> Equal(b, a)
    ensures Equal(a, b) && Equal(b, c) ==> Equal(a, c)
  {
  }

  /** A vertex-stage and a pixel-stage buffer in the same slot are one key. */
  lemma StageDoesNotSeparateKeys(slot: U32)
    ensures Equal(ResourceDescriptor(Buffer, VertexStage, slot), ResourceDescriptor(Buffer, PixelStage, slot))
    ensures Hash(ResourceDescriptor(Buffer, VertexStage, slot)) == Hash(ResourceDescriptor(Buffer, PixelStage, slot))
  {
  }

  /** The equivalence class of a descriptor under Equal. */
  datatype SlotKey = SlotKey(resourceType: ResourceType, slotIndex: U32)

  function KeyOf(d: ResourceDescriptor): (k: SlotKey)
    ensures k.resourceType == d.resourceType && k.slotIndex == d.slotIndex
  {
    SlotKey(d.resourceType, d.slotIndex)
  }

  lemma KeyOfMatchesEqual(a: ResourceDescriptor, b: ResourceDescriptor)
    ensures KeyOf(a) == KeyOf(b) <==> Equal(a, b)
  {
  }

  /**
   * A stored map entry: the stage of the key object kept in the map (the
   * descriptor of the first insertion) and the mapped ID3D11DeviceChild*.
   */
  datatype Entry = Entry(stage: ResourceStage, resource: Ptr)

  /** std::unordered_map<ResourceDescriptor, ID3D11DeviceChild*>, one entry per equivalence class. */
  type ResourceTable = map<SlotKey, Entry>

  /**
   * The stored key object of an entry: it carries the entry's stage, and the
   * descriptors equal_to matches with it are exactly those whose key is k.
   */
  function StoredDescriptor(k: SlotKey, e: Entry): (d: ResourceDescriptor)
    ensures KeyOf(d) == k && d.stage == e.stage
    ensures forall other: ResourceDescriptor :: Equal(d, other) <==> KeyOf(other) == k
  {
    ResourceDescriptor(k.resourceType, e.stage, k.slotIndex)
  }

  /**
   * `table[d] = resource`: operator[] finds the entry whose key is Equal to d,
   * or inserts d with a value-initialised value; the assignment then replaces
   * the value. An existing key object, and so its stage, is kept.
   */
  function Assign(table: ResourceTable, d: ResourceDescriptor, resource: Ptr): (r: ResourceTable)
    ensures r.Keys == table.Keys + {KeyOf(d)}
    ensures r[KeyOf(d)].resource == resource
    ensures r[KeyOf(d)].stage == if KeyOf(d) in table then table[KeyOf(d)].stage else d.stage
    ensures forall k :: k in table && k != KeyOf(d) ==> r[k] == table[k]

  {
    var k := KeyOf(d);
    var stage := if k in table then table[k].stage else d.stage;
    var r := table[k := Entry(stage, resource)];
    assert k !in table ==> r.Keys == table.Keys + {k} && |table.Keys + {k}| == |table.Keys| + 1;
    r
  }

  /** Assigning to a key not yet present inserts it with the descriptor's own stage. */
  lemma AssignNewKey(table: ResourceTable, d: ResourceDescriptor, resource: Ptr)
    requires KeyOf(d) !in table
    ensures Assign(table, d, resource) == table[KeyOf(d) := Entry(d.stage, resource)]
  {
  }

  /** Assigning twice to Equal keys leaves one entry, holding the second resource and the first key's stage. */
  lemma SecondAssignOverrides(table: ResourceTable, d1: ResourceDescriptor, r1: Ptr, d2: ResourceDescriptor, r2: Ptr)
    requires Equal(d1, d2)
    ensures Assign(Assign(table, d1, r1), d2, r2) == Assign(table, d1, r2)
  {
    var a := Assign(Assign(table, d1, r1), d2, r2);
    var b := Assign(table, d1, r2);
    assert a.Keys == b.Keys;
    forall k | k in a ensures a[k] == b[k] { }
  }
}
