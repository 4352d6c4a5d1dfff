/**
 * The loop in DeviceContext::SetPipeline that walks a pipeline's resource table
 * and binds each entry: samplers and textures to the pixel shader, constant
 * buffers to the vertex or pixel shader by the stage stored with the entry.
 * The walk visits the entries of an std::unordered_map, in an order the
 * program does not fix; the model lets each step pick any entry not yet
 * visited, and proves that every order ends with the same bindings.
 */
module ResourceRouting {
  import opened Wrappers
  import opened Ints
  import opened D3D11
  import opened ResourceDescriptors
  import Pipelines

  /** The slot table the switch on the entry's type (and, for a buffer, its stage) selects. */
  function TableOf(k: SlotKey, stage: ResourceStage): SlotTable
  {
    match k.resourceType
    case Sampler => PsSamplers
    case Texture => PsShaderResources
    case Buffer => if stage == VertexStage then VsConstantBuffers else PsConstantBuffers
  }

  /** The binding point an entry is routed to. */
  function Target(k: SlotKey, stage: ResourceStage): BindingPoint
  {
    BindingPoint(TableOf(k, stage), k.slotIndex)
  }

  /** The one call the loop issues for an entry: one object at the entry's slot. */
  function RouteCall(k: SlotKey, e: Entry): Call
  {
    match k.resourceType
    case Sampler => PSSetSamplers(k.slotIndex, [e.resource])
    case Texture => PSSetShaderResources(k.slotIndex, [e.resource])
    case Buffer =>
      if e.stage == VertexStage then VSSetConstantBuffers(k.slotIndex, [e.resource])
      else PSSetConstantBuffers(k.slotIndex, [e.resource])
  }

  /** What occupies a binding point, if anything. */
  function Lookup(b: Bindings, p: BindingPoint): Option<Ptr>
  {
    if p in b.slots then Some(b.slots[p]) else None
  }

  /** Distinct entries are routed to distinct binding points: no two calls of the loop write the same slot. */
  lemma TargetsDistinct(k1: SlotKey, e1: Entry, k2: SlotKey, e2: Entry)
    requires k1 != k2
    ensures Target(k1, e1.stage) != Target(k2, e2.stage)
  {
  }

  /** The points written by the entries in `done`. */
  function Written(table: ResourceTable, done: set<SlotKey>): map<BindingPoint, Ptr>
    requires done <= table.Keys
  {
    map k | k in done :: Target(k, table[k].stage) := table[k].resource
  }

  /**
   * The bindings after the entries in `done` have been routed, in any order:
   * each routed entry occupies its target point and everything else is as in `b`.
   */
  function Routed(b: Bindings, table: ResourceTable, done: set<SlotKey>): Bindings
    requires done <= table.Keys
  {
    b.(slots := b.slots + Written(table, done))
  }

  /** Writing a single object into a slot table is a map update. */
  lemma SetOneSlot(m: map<BindingPoint, Ptr>, table: SlotTable, s: nat, x: Ptr)
    ensures SetSlots(m, table, s, [x]) == m[BindingPoint(table, s) := x]
  {
    SetSlotsWrites(m, table, s, [x]);
    var r := SetSlots(m, table, s, [x]);
    assert r.Keys == m[BindingPoint(table, s) := x].Keys;
  }

  /** The call for an entry writes exactly the entry's target point. */
  lemma ApplyRouteCall(b: Bindings, k: SlotKey, e: Entry)
    ensures Apply(b, RouteCall(k, e)) == b.(slots := b.slots[Target(k, e.stage) := e.resource])
  {
    SetOneSlot(b.slots, TableOf(k, e.stage), k.slotIndex, e.resource);
    match k.resourceType
    case Sampler =>
      assert RouteCall(k, e) == PSSetSamplers(k.slotIndex, [e.resource]);
    case Texture =>
      assert RouteCall(k, e) == PSSetShaderResources(k.slotIndex, [e.resource]);
    case Buffer =>
      if e.stage == VertexStage {
        assert RouteCall(k, e) == VSSetConstantBuffers(k.slotIndex, [e.resource]);
      } else {
        assert RouteCall(k, e) == PSSetConstantBuffers(k.slotIndex, [e.resource]);
      }
  }

  /** One more routed entry adds its target point to the written points. */
  lemma WrittenStep(table: ResourceTable, done: set<SlotKey>, k: SlotKey)
    requires done <= table.Keys && k in table && k !in done
    ensures Written(table, done + {k}) == Written(table, done)[Target(k, table[k].stage) := table[k].resource]
  {
    var t := Target(k, table[k].stage);
    var before := Written(table, done);
    var after := Written(table, done + {k});
    assert after.Keys == before.Keys + {t};
    forall p | p in after && p != t ensures p in before && after[p] == before[p] {
      var k' :| k' in done + {k} && Target(k', table[k'].stage) == p;
      assert k' in done;
    }
  }

  lemma UnionUpdate(m: map<BindingPoint, Ptr>, w: map<BindingPoint, Ptr>, p: BindingPoint, x: Ptr)
    ensures (m + w)[p := x] == m + w[p := x]
  {
  }

  /** Routing one more entry extends `done` by that entry. */
  lemma RouteStep(b: Bindings, table: ResourceTable, done: set<SlotKey>, k: SlotKey)
    requires done <= table.Keys && k in table && k !in done
    ensures Apply(Routed(b, table, done), RouteCall(k, table[k])) == Routed(b, table, done + {k})
  {
    ApplyRouteCall(Routed(b, table, done), k, table[k]);
    WrittenStep(table, done, k);
    UnionUpdate(b.slots, Written(table, done), Target(k, table[k].stage), table[k].resource);
  }

  /** No key is visited twice. */
  ghost predicate NoRepeats(order: seq<SlotKey>)
  {
    forall i, j :: 0 <= i < j < |order| ==> order[i] != order[j]
  }

  /** An order of visiting the table: each key exactly once. */
  ghost predicate IsTraversal(order: seq<SlotKey>, table: ResourceTable)
  {
    NoRepeats(order) && (forall k :: k in order <==> k in table)
  }

  /** The calls issued for a sequence of visited keys, in order. */
  function RouteCalls(table: ResourceTable, order: seq<SlotKey>): seq<Call>
    requires forall k :: k in order ==> k in table
  {
    if order == [] then []
    else RouteCalls(table, order[..|order| - 1]) + [RouteCall(order[|order| - 1], table[order[|order| - 1]])]
  }

  /** The bindings after issuing the calls for a sequence of visited keys. */
  function Replay(b: Bindings, table: ResourceTable, order: seq<SlotKey>): Bindings
    requires forall k :: k in order ==> k in table
  {
    if order == [] then b
    else
      var last := order[|order| - 1];
      Apply(Replay(b, table, order[..|order| - 1]), RouteCall(last, table[last]))
  }

  /** The keys a traversal has visited. */
  function Visited(order: seq<SlotKey>): (v: set<SlotKey>)
    ensures forall k :: k in v <==> k in order
  {
    set k | k in order
  }

  /** Visiting one more key adds it to the visited keys; the shorter order is still repetition-free and does not hold the last key. */
  lemma SplitLastVisit(order: seq<SlotKey>)
    requires |order| > 0
    requires NoRepeats(order)
    ensures Visited(order) == Visited(order[..|order| - 1]) + {order[|order| - 1]}
    ensures order[|order| - 1] !in order[..|order| - 1]
    ensures forall k :: k in order[..|order| - 1] ==> k in order
    ensures NoRepeats(order[..|order| - 1])
  {
    var n := |order| - 1;
    var prefix := order[..n];
    assert order == prefix + [order[n]];
    forall i | 0 <= i < n ensures prefix[i] != order[n] {
      assert prefix[i] == order[i];
    }
  }

  /** The empty order writes nothing. */
  lemma ReplayEmpty(b: Bindings, table: ResourceTable)
    ensures Replay(b, table, []) == Routed(b, table, Visited([]))
  {
    assert Visited([]) == {};
    assert Written(table, {}) == map[];
    assert b.slots + map[] == b.slots;
  }

  /** The last call of a replay routes the last key on top of the keys before it. */
  lemma ReplayLast(b: Bindings, table: ResourceTable, order: seq<SlotKey>)
    requires |order| > 0
    requires forall k :: k in order ==> k in table
    requires Visited(order[..|order| - 1]) <= table.Keys
    requires order[|order| - 1] !in Visited(order[..|order| - 1])
    requires Replay(b, table, order[..|order| - 1]) == Routed(b, table, Visited(order[..|order| - 1]))
    ensures Replay(b, table, order) == Routed(b, table, Visited(order[..|order| - 1]) + {order[|order| - 1]})
  {
    var prefix := order[..|order| - 1];
    var last := order[|order| - 1];
    assert Replay(b, table, order) == Apply(Replay(b, table, prefix), RouteCall(last, table[last]));
    RouteStep(b, table, Visited(prefix), last);
  }

  /** Replaying any repetition-free order gives the order-free Routed bindings of the keys visited. */
  lemma {:induction false} ReplayIsRouted(b: Bindings, table: ResourceTable, order: seq<SlotKey>)
    requires forall k :: k in order ==> k in table
    requires NoRepeats(order)
    ensures Visited(order) <= table.Keys
    ensures Replay(b, table, order) == Routed(b, table, Visited(order))
    decreases |order|
  {
    if order == [] {
      ReplayEmpty(b, table);
    } else {
      SplitLastVisit(order);
      ReplayIsRouted(b, table, order[..|order| - 1]);
      ReplayLast(b, table, order);
    }
  }

  /** The binding order does not matter: two traversals of the table end in the same bindings. */
  lemma TraversalOrderIrrelevant(b: Bindings, table: ResourceTable, o1: seq<SlotKey>, o2: seq<SlotKey>)
    requires IsTraversal(o1, table) && IsTraversal(o2, table)
    ensures Replay(b, table, o1) == Replay(b, table, o2)
  {
    ReplayIsRouted(b, table, o1);
    ReplayIsRouted(b, table, o2);
    assert Visited(o1) == Visited(o2);
  }

  /** After the whole table is routed, every entry sits at its target point. */
  lemma RoutedBindsEachEntry(b: Bindings, table: ResourceTable, k: SlotKey)
    requires k in table
    ensures Lookup(Routed(b, table, table.Keys), Target(k, table[k].stage)) == Some(table[k].resource)
  {
  }

  /** A binding point that no entry is routed to keeps what it held. */
  lemma RoutedKeepsOtherPoints(b: Bindings, table: ResourceTable, p: BindingPoint)
    requires forall k :: k in table ==> Target(k, table[k].stage) != p
    ensures Lookup(Routed(b, table, table.Keys), p) == Lookup(b, p)
  {
    assert p !in Written(table, table.Keys);
  }

  /** A table filled only through the Pipeline's Bind methods never reaches a pixel-shader constant buffer. */
  lemma VertexStageTablesLeavePixelBuffers(b: Bindings, table: ResourceTable, slot: nat)
    requires Pipelines.AllVertexStage(table)
    ensures Lookup(Routed(b, table, table.Keys), BindingPoint(PsConstantBuffers, slot)) == Lookup(b, BindingPoint(PsConstantBuffers, slot))
  {
    RoutedKeepsOtherPoints(b, table, BindingPoint(PsConstantBuffers, slot));
  }

  /** One more step of the loop: the visited order, the bindings and the trace each grow by the key taken. */
  lemma VisitOneMore(ctx: Context, table: ResourceTable, order: seq<SlotKey>, k: SlotKey)
    requires forall k' :: k' in order ==> k' in table
    requires NoRepeats(order)
    requires k in table && k !in order
    ensures forall k' :: k' in order + [k] ==> k' in table
    ensures NoRepeats(order + [k])
    ensures Replay(ctx.bindings, table, order + [k]) == Apply(Replay(ctx.bindings, table, order), RouteCall(k, table[k]))
    ensures ctx.trace + RouteCalls(table, order + [k]) == ctx.trace + RouteCalls(table, order) + [RouteCall(k, table[k])]
  {
    var next := order + [k];
    assert next[..|next| - 1] == order && next[|next| - 1] == k;
    assert RouteCalls(table, next) == RouteCalls(table, order) + [RouteCall(k, table[k])];
  }

  /**
   * The loop itself: repeatedly take an entry not yet visited and issue its call.
   * `order` is the traversal the loop happened to take.
   */
  method BindAll(ctx: Context, table: ResourceTable) returns (r: Context, ghost order: seq<SlotKey>)
    ensures IsTraversal(order, table)
    ensures r.bindings == Routed(ctx.bindings, table, table.Keys)
    ensures r.trace == ctx.trace + RouteCalls(table, order)
  {
    var remaining := table.Keys;
    r := ctx;
    order := [];
    while remaining != {}
      invariant remaining <= table.Keys
      invariant forall k :: k in order <==> k in table && k !in remaining
      invariant NoRepeats(order)
      invariant r.bindings == Replay(ctx.bindings, table, order)
      invariant r.trace == ctx.trace + RouteCalls(table, order)
      decreases remaining
    {
      var k :| k in remaining;
      VisitOneMore(ctx, table, order, k);
      r := Issue(r, RouteCall(k, table[k]));
      order := order + [k];
      remaining := remaining - {k};
    }
    ReplayIsRouted(ctx.bindings, table, order);
    assert Visited(order) == table.Keys;
  }
}
