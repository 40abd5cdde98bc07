/** The subgraph deleters of Sources/Adapters/Tensorflow/TFDeleteSubgraph.swift
    and Sources/Adapters/Tensorflow/TFDeleteOptimizers.swift.

    A deleter strips every node whose name matches its pattern. Before
    that, a deleter that rewires (only `TFDeleteDropout` does) records, per
    subgraph id, the outside predecessors of its input nodes and the outside
    successors of its output nodes; afterwards each recorded successor gains
    each recorded predecessor of the same id as an incoming node. */
module TFSubgraphs {
  import opened Wrappers
  import opened SeqUtil
  import opened Graph
  import opened TFProto
  import opened TFNames
  import opened TFGraphs
  import opened TFOptimizers

  /** The four deleters: save, initializer and regularizer subgraphs are
      dropped without rewiring, dropout subgraphs are bridged. */
  datatype Deleter = DeleteSave | DeleteInitializer | DeleteRegularizer | DeleteDropout

  /** The `regex` of each deleter. */
  function PatternOf(d: Deleter): Pattern {
    match d
    case DeleteSave => SavePattern
    case DeleteInitializer => InitializerPattern
    case DeleteRegularizer => RegularizerPattern
    case DeleteDropout => DropoutPattern
  }

  /** `isInSubgraph`: the pattern matches the name. */
  predicate InSubgraph(d: Deleter, def: NodeDef) {
    Test(def.name, PatternOf(d))
  }

  /** `isInputNode`: never by default; the Shape ops for dropout. */
  predicate IsInputNode(d: Deleter, def: NodeDef) {
    d == DeleteDropout && def.op == TFNames.Shape
  }

  /** `isOutputNode`: never by default; the `dropout(_\d+)?/mul` names for
      dropout. */
  predicate IsOutputNode(d: Deleter, def: NodeDef) {
    d == DeleteDropout && Test(def.name, DropoutMulPattern)
  }

  /** `id(for:)`: the name up to the end of the first match. */
  function SubgraphId(d: Deleter, def: NodeDef): (id: string)
    requires InSubgraph(d, def)
    ensures id <= def.name && Test(id, PatternOf(d)) && IdFor(id, PatternOf(d)) == id
  {
    IdForIdempotent(def.name, PatternOf(d));
    IdFor(def.name, PatternOf(d))
  }

  /** The part a node plays in `optimize`. */
  datatype Role = Outside | Input(id: string) | Output(id: string) | Member(id: string)

  /** The role of a node: outside the subgraph, or a subgraph node of some
      id that is first asked whether it is an input node, and only if not
      whether it is an output node. */
  function RoleOf(d: Deleter, def: NodeDef): (r: Role)
    ensures r.Outside? <==> !InSubgraph(d, def)
    ensures r.Input? <==> InSubgraph(d, def) && IsInputNode(d, def)
    ensures r.Output? <==> InSubgraph(d, def) && !IsInputNode(d, def) && IsOutputNode(d, def)
    ensures !r.Outside? ==> r.id == SubgraphId(d, def)
  {
    if !InSubgraph(d, def) then Outside
    else if IsInputNode(d, def) then Input(SubgraphId(d, def))
    else if IsOutputNode(d, def) then Output(SubgraphId(d, def))
    else Member(SubgraphId(d, def))
  }

  /** The deleters other than dropout never rewire. */
  lemma DefaultsNeverRewire(d: Deleter, def: NodeDef)
    requires d != DeleteDropout
    ensures !RoleOf(d, def).Input? && !RoleOf(d, def).Output?
  {
  }

  /** Every dropout output name is itself in the dropout subgraph, and its
      id ends with the matched `/`. */
  lemma DropoutOutputsAreMembers(def: NodeDef)
    requires IsOutputNode(DeleteDropout, def)
    ensures InSubgraph(DeleteDropout, def) && !RoleOf(DeleteDropout, def).Outside?
  {
    DropoutMulInSubgraph(def.name);
  }

  function Roles(d: Deleter, defs: seq<NodeDef>): (r: seq<Role>)
    ensures |r| == |defs| && forall v :: 0 <= v < |defs| ==> r[v] == RoleOf(d, defs[v])
  {
    seq(|defs|, v requires 0 <= v < |defs| => RoleOf(d, defs[v]))
  }

  predicate IsOutside(u: Id, roles: seq<Role>) {
    u < |roles| && roles[u].Outside?
  }

  /** `filter { !isInSubgraph($0) }`. */
  function OutsideOf(list: seq<Id>, roles: seq<Role>): (r: seq<Id>)
    ensures forall u :: u in r <==> u in list && IsOutside(u, roles)
    decreases |list|
  {
    if list == [] then []
    else
      var rest := OutsideOf(list[..|list| - 1], roles);
      var last := list[|list| - 1];
      assert list == list[..|list| - 1] + [last];
      if IsOutside(last, roles) then rest + [last] else rest
  }

  /** The listed nodes that are in the subgraph. */
  ghost function Members(nodes: seq<Id>, roles: seq<Role>): set<Id> {
    set v | v in nodes && !IsOutside(v, roles)
  }

  /** The recorded outside predecessors and successors of one id. */
  datatype Mapping = Mapping(inputs: Option<seq<Id>>, outputs: Option<seq<Id>>)

  /** `mappings[id] ?? (nil, nil)`. */
  function Lookup(mappings: map<string, Mapping>, id: string): Mapping {
    if id in mappings then mappings[id] else Mapping(None, None)
  }

  /** Setting a missing list, appending to a present one. */
  function Extend(o: Option<seq<Id>>, more: seq<Id>): (r: Option<seq<Id>>)
    ensures r.Some? && forall u :: u in r.value <==> (o.Some? && u in o.value) || u in more
  {
    if o.None? then Some(more) else Some(o.value + more)
  }

  // ---------------------------------------------------------------------
  // What the first loop records

  /** `p` is an outside predecessor, in `ins`, of a listed input node of
      group `id`. */
  ghost predicate FeedsGroup(p: Id, id: string, nodes: seq<Id>, roles: seq<Role>, ins: seq<seq<Id>>) {
    IsOutside(p, roles) && exists a :: a in nodes && a < |roles| && a < |ins| && roles[a] == Input(id) && p in ins[a]
  }

  /** `s` is an outside successor, in `outs`, of a listed output node of
      group `id`. */
  ghost predicate FedByGroup(s: Id, id: string, nodes: seq<Id>, roles: seq<Role>, outs: seq<seq<Id>>) {
    IsOutside(s, roles) && exists b :: b in nodes && b < |roles| && b < |outs| && roles[b] == Output(id) && s in outs[b]
  }

  /** Everything recorded is an outside neighbour of a listed input or
      output node of its id. */
  ghost predicate Sound(mappings: map<string, Mapping>, nodes: seq<Id>, roles: seq<Role>, ins: seq<seq<Id>>, outs: seq<seq<Id>>) {
    (forall id, p :: id in mappings && mappings[id].inputs.Some? && p in mappings[id].inputs.value ==>
       FeedsGroup(p, id, nodes, roles, ins)) &&
    (forall id, s :: id in mappings && mappings[id].outputs.Some? && s in mappings[id].outputs.value ==>
       FedByGroup(s, id, nodes, roles, outs))
  }

  /** Every outside neighbour of an input or output node of `done` is
      recorded under the node's id. */
  ghost predicate Complete(mappings: map<string, Mapping>, done: seq<Id>, roles: seq<Role>, ins: seq<seq<Id>>, outs: seq<seq<Id>>) {
    (forall a :: a in done && a < |roles| && a < |ins| && roles[a].Input? ==>
       roles[a].id in mappings && mappings[roles[a].id].inputs.Some? &&
       forall p :: p in ins[a] && IsOutside(p, roles) ==> p in mappings[roles[a].id].inputs.value) &&
    (forall b :: b in done && b < |roles| && b < |outs| && roles[b].Output? ==>
       roles[b].id in mappings && mappings[roles[b].id].outputs.Some? &&
       forall s :: s in outs[b] && IsOutside(s, roles) ==> s in mappings[roles[b].id].outputs.value)
  }

  /** The entries of `lists0` from outside nodes on rows not yet visited are
      still in `lists1`. */
  ghost predicate OutsideKept(lists0: seq<seq<Id>>, lists1: seq<seq<Id>>, done: seq<Id>, roles: seq<Role>) {
    |lists1| == |lists0| &&
    forall v, w :: 0 <= v < |lists0| && v !in done && IsOutside(w, roles) && w in lists0[v] ==> w in lists1[v]
  }

  /** Recording an input node keeps the records sound and makes them
      complete for that node. */
  lemma RecordInput(mappings: map<string, Mapping>, nodes: seq<Id>, i: nat, roles: seq<Role>,
                    ins0: seq<seq<Id>>, outs0: seq<seq<Id>>, ins1: seq<seq<Id>>, id: string)
    requires i < |nodes| && nodes[i] < |roles| == |ins0| == |ins1| && roles[nodes[i]] == Input(id)
    requires Sound(mappings, nodes, roles, ins0, outs0) && Complete(mappings, nodes[..i], roles, ins0, outs0)
    requires Shrunk(ins0, ins1) && OutsideKept(ins0, ins1, nodes[..i], roles)
    ensures var cur := Lookup(mappings, id);
      var m := mappings[id := cur.(inputs := Extend(cur.inputs, OutsideOf(ins1[nodes[i]], roles)))];
      Sound(m, nodes, roles, ins0, outs0) && Complete(m, nodes[..i + 1], roles, ins0, outs0)
  {
    var x := nodes[i];
    var more := OutsideOf(ins1[x], roles);
    var cur := Lookup(mappings, id);
    var m := mappings[id := cur.(inputs := Extend(cur.inputs, more))];
    assert nodes[..i + 1] == nodes[..i] + [x];
    forall key, p | key in m && m[key].inputs.Some? && p in m[key].inputs.value
      ensures FeedsGroup(p, key, nodes, roles, ins0)
    {
      if key == id && p in more {
        assert x in nodes && p in ins0[x];
      }
    }
    forall a | a in nodes[..i + 1] && a < |roles| && a < |ins0| && roles[a].Input?
      ensures roles[a].id in m && m[roles[a].id].inputs.Some?
      ensures forall p :: p in ins0[a] && IsOutside(p, roles) ==> p in m[roles[a].id].inputs.value
    {
      if a !in nodes[..i] {
        assert a == x;
        forall p | p in ins0[a] && IsOutside(p, roles) ensures p in m[roles[a].id].inputs.value {
          assert p in ins1[a];
        }
      }
    }
  }

  /** Recording an output node keeps the records sound and makes them
      complete for that node. */
  lemma RecordOutput(mappings: map<string, Mapping>, nodes: seq<Id>, i: nat, roles: seq<Role>,
                     ins0: seq<seq<Id>>, outs0: seq<seq<Id>>, outs1: seq<seq<Id>>, id: string)
    requires i < |nodes| && nodes[i] < |roles| == |outs0| == |outs1| && roles[nodes[i]] == Output(id)
    requires Sound(mappings, nodes, roles, ins0, outs0) && Complete(mappings, nodes[..i], roles, ins0, outs0)
    requires Shrunk(outs0, outs1) && OutsideKept(outs0, outs1, nodes[..i], roles)
    ensures var cur := Lookup(mappings, id);
      var m := mappings[id := cur.(outputs := Extend(cur.outputs, OutsideOf(outs1[nodes[i]], roles)))];
      Sound(m, nodes, roles, ins0, outs0) && Complete(m, nodes[..i + 1], roles, ins0, outs0)
  {
    var x := nodes[i];
    var more := OutsideOf(outs1[x], roles);
    var cur := Lookup(mappings, id);
    var m := mappings[id := cur.(outputs := Extend(cur.outputs, more))];
    assert nodes[..i + 1] == nodes[..i] + [x];
    forall key, s | key in m && m[key].outputs.Some? && s in m[key].outputs.value
      ensures FedByGroup(s, key, nodes, roles, outs0)
    {
      if key == id && s in more {
        assert x in nodes && s in outs0[x];
      }
    }
    forall b | b in nodes[..i + 1] && b < |roles| && b < |outs0| && roles[b].Output?
      ensures roles[b].id in m && m[roles[b].id].outputs.Some?
      ensures forall s :: s in outs0[b] && IsOutside(s, roles) ==> s in m[roles[b].id].outputs.value
    {
      if b !in nodes[..i] {
        assert b == x;
        forall s | s in outs0[b] && IsOutside(s, roles) ensures s in m[roles[b].id].outputs.value {
          assert s in outs1[b];
        }
      }
    }
  }

  /** Stripping a subgraph node keeps the outside entries of the rows not
      yet visited. */
  lemma StripKeepsOutside(lists0: seq<seq<Id>>, lists1: seq<seq<Id>>, lists2: seq<seq<Id>>,
                          nodes: seq<Id>, i: nat, roles: seq<Role>)
    requires i < |nodes| && !IsOutside(nodes[i], roles)
    requires OutsideKept(lists0, lists1, nodes[..i], roles) && KeepsOthers(lists1, lists2, nodes[i])
    ensures OutsideKept(lists0, lists2, nodes[..i + 1], roles)
  {
    assert nodes[..i + 1] == nodes[..i] + [nodes[i]];
  }

  /** What the first loop of `optimize` has established after visiting
      `nodes[..i]`, starting from the lists `in0` and `out0`. */
  ghost predicate Collected(in0: seq<seq<Id>>, out0: seq<seq<Id>>, in1: seq<seq<Id>>, out1: seq<seq<Id>>,
                            nodes: seq<Id>, i: nat, roles: seq<Role>, mappings: map<string, Mapping>, order: seq<string>)
    requires i <= |nodes|
  {
    Shrunk(in0, in1) && Shrunk(out0, out1) &&
    OutsideKept(in0, in1, nodes[..i], roles) && OutsideKept(out0, out1, nodes[..i], roles) &&
    Sound(mappings, nodes, roles, in0, out0) && Complete(mappings, nodes[..i], roles, in0, out0) &&
    forall id :: id in mappings <==> id in order
  }

  /** The recording half of one turn of the first loop of `optimize`: an
      input node adds its outside predecessors under its id, an output node
      its outside successors; a new id joins `order`. */
  method Record(nodes: seq<Id>, i: nat, roles: seq<Role>, mappings: map<string, Mapping>, order: seq<string>,
                ghost in0: seq<seq<Id>>, ghost out0: seq<seq<Id>>, in1: seq<seq<Id>>, out1: seq<seq<Id>>)
    returns (mappings': map<string, Mapping>, order': seq<string>)
    requires i < |nodes| && nodes[i] < |roles| == |in1| == |out1|
    requires Collected(in0, out0, in1, out1, nodes, i, roles, mappings, order)
    ensures Sound(mappings', nodes, roles, in0, out0) && Complete(mappings', nodes[..i + 1], roles, in0, out0)
    ensures forall id :: id in mappings' <==> id in order'
  {
    var x := nodes[i];
    mappings', order' := mappings, order;
    assert nodes[..i + 1] == nodes[..i] + [x];
    if !roles[x].Outside? {
      var id := roles[x].id;
      var cur := Lookup(mappings, id);
      if roles[x].Input? {
        RecordInput(mappings, nodes, i, roles, in0, out0, in1, id);
        if id !in mappings {
          order' := order + [id];
        }
        mappings' := mappings[id := cur.(inputs := Extend(cur.inputs, OutsideOf(in1[x], roles)))];
      } else if roles[x].Output? {
        RecordOutput(mappings, nodes, i, roles, in0, out0, out1, id);
        if id !in mappings {
          order' := order + [id];
        }
        mappings' := mappings[id := cur.(outputs := Extend(cur.outputs, OutsideOf(out1[x], roles)))];
      }
    }
  }

  /** One turn of the first loop of `optimize`: an input node records its
      outside predecessors under its id, an output node its outside
      successors, and every subgraph node is stripped. */
  method Visit(t: NodeTable, nodes: seq<Id>, i: nat, roles: seq<Role>,
               mappings: map<string, Mapping>, order: seq<string>, ghost in0: seq<seq<Id>>, ghost out0: seq<seq<Id>>)
    returns (mappings': map<string, Mapping>, order': seq<string>)
    requires t.Valid() && t.Size() == |roles| && i < |nodes| && nodes[i] < |roles|
    requires Collected(in0, out0, t.edgeIn, t.edgeOut, nodes, i, roles, mappings, order)
    modifies t
    ensures t.Valid() && t.Size() == old(t.Size())
    ensures Collected(in0, out0, t.edgeIn, t.edgeOut, nodes, i + 1, roles, mappings', order')
    ensures !IsOutside(nodes[i], roles) ==> t.IsLonely(nodes[i])
    ensures IsOutside(nodes[i], roles) ==> t.edgeIn == old(t.edgeIn) && t.edgeOut == old(t.edgeOut)
    ensures KeepsOthers(old(t.edgeIn), t.edgeIn, nodes[i]) && KeepsOthers(old(t.edgeOut), t.edgeOut, nodes[i])
    ensures forall v :: 0 <= v < t.Size() && old(t.IsLonely(v)) ==> t.IsLonely(v)
    ensures old(t.WellFormed()) ==> t.WellFormed()
  {
    var x := nodes[i];
    mappings', order' := Record(nodes, i, roles, mappings, order, in0, out0, t.edgeIn, t.edgeOut);
    assert nodes[..i + 1] == nodes[..i] + [x];
    if !roles[x].Outside? {
      ghost var in1, out1 := t.edgeIn, t.edgeOut;
      t.Strip(x);
      StripKeepsOutside(in0, in1, t.edgeIn, nodes, i, roles);
      StripKeepsOutside(out0, out1, t.edgeOut, nodes, i, roles);
    }
  }

  /** The first loop of `optimize`: every listed subgraph node is visited in
      order; input and output nodes have their outside neighbours recorded
      under their id, then every subgraph node is stripped. `order` lists
      the recorded ids in the order they were first recorded. */
  method CollectAndStrip(t: NodeTable, nodes: seq<Id>, roles: seq<Role>)
    returns (mappings: map<string, Mapping>, order: seq<string>)
    requires t.Valid() && t.Size() == |roles| && Bounded(nodes, |roles|)
    modifies t
    ensures t.Valid() && t.Size() == old(t.Size())
    ensures forall v :: v in nodes && !IsOutside(v, roles) ==> t.IsLonely(v)
    ensures forall v :: 0 <= v < t.Size() && old(t.IsLonely(v)) ==> t.IsLonely(v)
    ensures Shrunk(old(t.edgeIn), t.edgeIn) && Shrunk(old(t.edgeOut), t.edgeOut)
    ensures Kept(old(t.edgeIn), t.edgeIn, Members(nodes, roles)) && Kept(old(t.edgeOut), t.edgeOut, Members(nodes, roles))
    ensures old(t.WellFormed()) ==> t.WellFormed()
    ensures Sound(mappings, nodes, roles, old(t.edgeIn), old(t.edgeOut))
    ensures Complete(mappings, nodes, roles, old(t.edgeIn), old(t.edgeOut))
    ensures forall id :: id in mappings <==> id in order
  {
    mappings, order := map[], [];
    ghost var in0, out0 := t.edgeIn, t.edgeOut;
    ghost var wf0 := t.WellFormed();
    BoundedIsBoundedAt(nodes, |roles|);
    for i := 0 to |nodes|
      invariant t.Valid() && t.Size() == |roles|
      invariant forall k :: 0 <= k < i && !IsOutside(nodes[k], roles) ==> t.IsLonely(nodes[k])
      invariant forall v :: 0 <= v < t.Size() && old(t.IsLonely(v)) ==> t.IsLonely(v)
      invariant wf0 ==> t.WellFormed()
      invariant Kept(in0, t.edgeIn, Members(nodes, roles)) && Kept(out0, t.edgeOut, Members(nodes, roles))
      invariant Collected(in0, out0, t.edgeIn, t.edgeOut, nodes, i, roles, mappings, order)
    {
      label Before:
      mappings, order := VisitKept(t, nodes, i, roles, mappings, order, in0, out0);
      forall k | 0 <= k < i + 1 && !IsOutside(nodes[k], roles) ensures t.IsLonely(nodes[k]) {
        if k < i {
          assert old@Before(t.IsLonely(nodes[k]));
        }
      }
    }
    assert nodes[..|nodes|] == nodes;
    forall v | v in nodes && !IsOutside(v, roles) ensures t.IsLonely(v) {
      var k :| 0 <= k < |nodes| && nodes[k] == v;
    }
  }

  /** `Visit`, keeping every edge between two nodes outside the subgraph. */
  method VisitKept(t: NodeTable, nodes: seq<Id>, i: nat, roles: seq<Role>,
                   mappings: map<string, Mapping>, order: seq<string>, ghost in0: seq<seq<Id>>, ghost out0: seq<seq<Id>>)
    returns (mappings': map<string, Mapping>, order': seq<string>)
    requires t.Valid() && t.Size() == |roles| && i < |nodes| && nodes[i] < |roles|
    requires Collected(in0, out0, t.edgeIn, t.edgeOut, nodes, i, roles, mappings, order)
    requires Kept(in0, t.edgeIn, Members(nodes, roles)) && Kept(out0, t.edgeOut, Members(nodes, roles))
    modifies t
    ensures t.Valid() && t.Size() == old(t.Size())
    ensures Collected(in0, out0, t.edgeIn, t.edgeOut, nodes, i + 1, roles, mappings', order')
    ensures Kept(in0, t.edgeIn, Members(nodes, roles)) && Kept(out0, t.edgeOut, Members(nodes, roles))
    ensures !IsOutside(nodes[i], roles) ==> t.IsLonely(nodes[i])
    ensures forall v :: 0 <= v < t.Size() && old(t.IsLonely(v)) ==> t.IsLonely(v)
    ensures old(t.WellFormed()) ==> t.WellFormed()
  {
    ghost var in1, out1 := t.edgeIn, t.edgeOut;
    mappings', order' := Visit(t, nodes, i, roles, mappings, order, in0, out0);
    if !IsOutside(nodes[i], roles) {
      KeptStep(in0, in1, t.edgeIn, Members(nodes, roles), nodes[i]);
      KeptStep(out0, out1, t.edgeOut, Members(nodes, roles), nodes[i]);
    }
  }

  // ---------------------------------------------------------------------
  // The second loop: bridging each id

  /** Chaining two steps that each add only pairs from a source list and a
      target list. */
  lemma AddsOnlyChain(l0: seq<seq<Id>>, l1: seq<seq<Id>>, l2: seq<seq<Id>>,
                      s1: seq<Id>, t1: seq<Id>, s2: seq<Id>, t2: seq<Id>, s: seq<Id>, t: seq<Id>)
    requires |l1| == |l0| && |l2| == |l0|
    requires AddsOnly(l0, l1, s1, t1) && AddsOnly(l1, l2, s2, t2)
    requires forall x :: x in s1 || x in s2 ==> x in s
    requires forall y :: y in t1 || y in t2 ==> y in t
    ensures AddsOnly(l0, l2, s, t)
  {
  }

  /** One more `addIncomingEdge(from: sources[k])` on `v` keeps the inner
      loop's account of what was added. */
  lemma EdgeAddedStep(in0: seq<seq<Id>>, out0: seq<seq<Id>>, in1: seq<seq<Id>>, out1: seq<seq<Id>>,
                      in2: seq<seq<Id>>, out2: seq<seq<Id>>, v: Id, sources: seq<Id>, k: nat)
    requires k < |sources| && v < |in0| && sources[k] < |in0|
    requires |in1| == |in0| && |out0| == |in0| && |out1| == |in0|
    requires GrownFrom(in0, in1) && GrownFrom(out0, out1)
    requires forall j :: 0 <= j < k ==> sources[j] in in1[v]
    requires AddsOnly(in0, in1, sources[..k], [v]) && AddsOnly(out0, out1, [v], sources[..k])
    requires in2 == if sources[k] in in1[v] then in1 else in1[v := in1[v] + [sources[k]]]
    requires out2 ==
      if sources[k] in in1[v] || v in out1[sources[k]] then out1
      else out1[sources[k] := out1[sources[k]] + [v]]
    ensures GrownFrom(in0, in2) && GrownFrom(out0, out2)
    ensures forall j :: 0 <= j < k + 1 ==> sources[j] in in2[v]
    ensures AddsOnly(in0, in2, sources[..k + 1], [v]) && AddsOnly(out0, out2, [v], sources[..k + 1])
  {
    var u := sources[k];
    assert sources[..k + 1] == sources[..k] + [u];
    assert AddsOnly(in1, in2, [u], [v]);
    assert AddsOnly(out1, out2, [v], [u]);
    AddsOnlyChain(in0, in1, in2, sources[..k], [v], [u], [v], sources[..k + 1], [v]);
    AddsOnlyChain(out0, out1, out2, [v], sources[..k], [v], [u], [v], sources[..k + 1]);
  }

  /** The inner loop of the bridge: `output.addIncomingEdge(from: input)` for
      every input in order. */
  method AddIncomingEdges(t: NodeTable, v: Id, sources: seq<Id>)
    requires t.Valid() && t.Has(v) && BoundedAt(sources, t.Size())
    modifies t
    ensures t.Valid() && t.Size() == old(t.Size())
    ensures GrownFrom(old(t.edgeIn), t.edgeIn) && GrownFrom(old(t.edgeOut), t.edgeOut)
    ensures forall k :: 0 <= k < |sources| ==> sources[k] in t.edgeIn[v]
    ensures AddsOnly(old(t.edgeIn), t.edgeIn, sources, [v])
    ensures AddsOnly(old(t.edgeOut), t.edgeOut, [v], sources)
    ensures old(t.WellFormed()) ==> t.WellFormed()
  {
    ghost var in0, out0, wf0 := t.edgeIn, t.edgeOut, t.WellFormed();
    for k := 0 to |sources|
      invariant t.Valid() && t.Size() == |in0|
      invariant GrownFrom(in0, t.edgeIn) && GrownFrom(out0, t.edgeOut)
      invariant forall j :: 0 <= j < k ==> sources[j] in t.edgeIn[v]
      invariant AddsOnly(in0, t.edgeIn, sources[..k], [v])
      invariant AddsOnly(out0, t.edgeOut, [v], sources[..k])
      invariant wf0 ==> t.WellFormed()
    {
      ghost var in1, out1 := t.edgeIn, t.edgeOut;
      label Before:
      t.AddIncomingEdge(v, sources[k]);
      EdgeAddedStep(in0, out0, in1, out1, t.edgeIn, t.edgeOut, v, sources, k);
      if wf0 {
        assert old@Before(t.MirroredAway(t.Size()));
      }
    }
    assert sources[..|sources|] == sources;
  }

  /** The bridge of one id: every output gains every input as an incoming
      node, outputs in order, and for each output the inputs in order. */
  method LinkAll(t: NodeTable, outputs: seq<Id>, inputs: seq<Id>)
    requires t.Valid() && BoundedAt(outputs, t.Size()) && BoundedAt(inputs, t.Size())
    modifies t
    ensures t.Valid() && t.Size() == old(t.Size())
    ensures GrownFrom(old(t.edgeIn), t.edgeIn) && GrownFrom(old(t.edgeOut), t.edgeOut)
    ensures LinkedTo(t.edgeIn, inputs, outputs)
    ensures AddsOnly(old(t.edgeIn), t.edgeIn, inputs, outputs)
    ensures AddsOnly(old(t.edgeOut), t.edgeOut, outputs, inputs)
    ensures old(t.WellFormed()) ==> t.WellFormed()
  {
    for m := 0 to |outputs|
      invariant t.Valid() && t.Size() == old(t.Size())
      invariant GrownFrom(old(t.edgeIn), t.edgeIn) && GrownFrom(old(t.edgeOut), t.edgeOut)
      invariant LinkedTo(t.edgeIn, inputs, outputs[..m])
      invariant AddsOnly(old(t.edgeIn), t.edgeIn, inputs, outputs[..m])
      invariant AddsOnly(old(t.edgeOut), t.edgeOut, outputs[..m], inputs)
      invariant old(t.WellFormed()) ==> t.WellFormed()
    {
      ghost var in1, out1 := t.edgeIn, t.edgeOut;
      AddIncomingEdges(t, outputs[m], inputs);
      AddsOnlyChain(old(t.edgeIn), in1, t.edgeIn, inputs, outputs[..m], inputs, [outputs[m]], inputs, outputs[..m + 1]);
      AddsOnlyChain(old(t.edgeOut), out1, t.edgeOut, outputs[..m], inputs, [outputs[m]], inputs, outputs[..m + 1], inputs);
      assert outputs[..m + 1] == outputs[..m] + [outputs[m]];
    }
    assert outputs[..|outputs|] == outputs;
  }

  /** An id whose input and output lists were both recorded: the
      `guard let inputs, let outputs` of the second loop. */
  predicate Bridges(m: Mapping) {
    m.inputs.Some? && m.outputs.Some?
  }

  /** Every recorded node is a node of a table of size `n`. */
  ghost predicate RecordsBounded(mappings: map<string, Mapping>, n: nat) {
    forall id :: id in mappings && Bridges(mappings[id]) ==>
      Bounded(mappings[id].inputs.value, n) && Bounded(mappings[id].outputs.value, n)
  }

  /** `w` is a recorded input and `v` a recorded output of one of `ids`. */
  ghost predicate WiredBy(mappings: map<string, Mapping>, ids: seq<string>, v: Id, w: Id) {
    exists id :: id in ids && id in mappings && Bridges(mappings[id]) &&
      w in mappings[id].inputs.value && v in mappings[id].outputs.value
  }

  /** The only incoming entries `in1` adds to `in0` are wired pairs... */
  ghost predicate InGainsWired(in0: seq<seq<Id>>, in1: seq<seq<Id>>, mappings: map<string, Mapping>, ids: seq<string>) {
    forall v: Id, w: Id {:trigger w in in1[v]} :: 0 <= v < |in0| && v < |in1| && w in in1[v] ==>
      w in in0[v] || WiredBy(mappings, ids, v, w)
  }

  /** ... and the only outgoing entries, their mirror images. */
  ghost predicate OutGainsWired(out0: seq<seq<Id>>, out1: seq<seq<Id>>, mappings: map<string, Mapping>, ids: seq<string>) {
    forall w: Id, v: Id {:trigger v in out1[w]} :: 0 <= w < |out0| && w < |out1| && v in out1[w] ==>
      v in out0[w] || WiredBy(mappings, ids, v, w)
  }

  /** Every pair of a bridged id among `ids` is linked. */
  ghost predicate AllLinked(in1: seq<seq<Id>>, mappings: map<string, Mapping>, ids: seq<string>) {
    forall id :: id in ids && id in mappings && Bridges(mappings[id]) ==>
      LinkedTo(in1, mappings[id].inputs.value, mappings[id].outputs.value)
  }

  /** Links stay linked when lists only grow. */
  lemma LinkedGrown(in1: seq<seq<Id>>, in2: seq<seq<Id>>, mappings: map<string, Mapping>, ids: seq<string>)
    requires AllLinked(in1, mappings, ids) && GrownFrom(in1, in2)
    ensures AllLinked(in2, mappings, ids)
  {
  }

  /** One turn of the second loop: the id's outputs gain its inputs. */
  lemma WireStep(in0: seq<seq<Id>>, out0: seq<seq<Id>>, in1: seq<seq<Id>>, out1: seq<seq<Id>>,
                 in2: seq<seq<Id>>, out2: seq<seq<Id>>, mappings: map<string, Mapping>, order: seq<string>, j: nat)
    requires j < |order| && order[j] in mappings && Bridges(mappings[order[j]])
    requires |in1| == |in0| && |out1| == |out0| && |in2| == |in0| && |out2| == |out0|
    requires InGainsWired(in0, in1, mappings, order[..j]) && OutGainsWired(out0, out1, mappings, order[..j])
    requires AddsOnly(in1, in2, mappings[order[j]].inputs.value, mappings[order[j]].outputs.value)
    requires AddsOnly(out1, out2, mappings[order[j]].outputs.value, mappings[order[j]].inputs.value)
    ensures InGainsWired(in0, in2, mappings, order[..j + 1]) && OutGainsWired(out0, out2, mappings, order[..j + 1])
  {
    assert order[..j + 1] == order[..j] + [order[j]];
    forall v: Id, w: Id | 0 <= v < |in0| && w in in2[v] && w !in in0[v]
      ensures WiredBy(mappings, order[..j + 1], v, w)
    {
      if w !in in1[v] {
        assert order[j] in order[..j + 1];
      } else {
        var id :| id in order[..j] && id in mappings && Bridges(mappings[id]) &&
          w in mappings[id].inputs.value && v in mappings[id].outputs.value;
        assert id in order[..j + 1];
      }
    }
    forall w: Id, v: Id | 0 <= w < |out0| && v in out2[w] && v !in out0[w]
      ensures WiredBy(mappings, order[..j + 1], v, w)
    {
      if v !in out1[w] {
        assert order[j] in order[..j + 1];
      } else {
        var id :| id in order[..j] && id in mappings && Bridges(mappings[id]) &&
          w in mappings[id].inputs.value && v in mappings[id].outputs.value;
        assert id in order[..j + 1];
      }
    }
  }

  /** The second loop of `optimize`: for every recorded id with both an
      input and an output list, every output gains every input as an
      incoming node. Nothing else is added. */
  method WireGroups(t: NodeTable, mappings: map<string, Mapping>, order: seq<string>)
    requires t.Valid() && RecordsBounded(mappings, t.Size())
    requires forall id :: id in mappings <==> id in order
    modifies t
    ensures t.Valid() && t.Size() == old(t.Size())
    ensures GrownFrom(old(t.edgeIn), t.edgeIn) && GrownFrom(old(t.edgeOut), t.edgeOut)
    ensures AllLinked(t.edgeIn, mappings, order)
    ensures InGainsWired(old(t.edgeIn), t.edgeIn, mappings, order)
    ensures OutGainsWired(old(t.edgeOut), t.edgeOut, mappings, order)
    ensures old(t.WellFormed()) ==> t.WellFormed()
  {
    for j := 0 to |order|
      invariant t.Valid() && t.Size() == old(t.Size())
      invariant GrownFrom(old(t.edgeIn), t.edgeIn) && GrownFrom(old(t.edgeOut), t.edgeOut)
      invariant AllLinked(t.edgeIn, mappings, order[..j])
      invariant InGainsWired(old(t.edgeIn), t.edgeIn, mappings, order[..j])
      invariant OutGainsWired(old(t.edgeOut), t.edgeOut, mappings, order[..j])
      invariant old(t.WellFormed()) ==> t.WellFormed()
    {
      assert order[j] in order;
      var m := mappings[order[j]];
      assert order[..j + 1] == order[..j] + [order[j]];
      if Bridges(m) {
        ghost var in1, out1 := t.edgeIn, t.edgeOut;
        BoundedIsBoundedAt(m.inputs.value, t.Size());
        BoundedIsBoundedAt(m.outputs.value, t.Size());
        LinkAll(t, m.outputs.value, m.inputs.value);
        WireStep(old(t.edgeIn), old(t.edgeOut), in1, out1, t.edgeIn, t.edgeOut, mappings, order, j);
        LinkedGrown(in1, t.edgeIn, mappings, order[..j]);
      }
    }
    assert order[..|order|] == order;
  }

  // ---------------------------------------------------------------------
  // `optimize`

  /** `p` feeds, and `s` is fed by, one and the same subgraph id. */
  ghost predicate Bridged(p: Id, s: Id, nodes: seq<Id>, roles: seq<Role>, ins: seq<seq<Id>>, outs: seq<seq<Id>>) {
    exists id :: FeedsGroup(p, id, nodes, roles, ins) && FedByGroup(s, id, nodes, roles, outs)
  }

  /** Everything recorded is outside, hence a node of the table. */
  lemma SoundBounded(mappings: map<string, Mapping>, nodes: seq<Id>, roles: seq<Role>, ins: seq<seq<Id>>, outs: seq<seq<Id>>)
    requires Sound(mappings, nodes, roles, ins, outs)
    ensures RecordsBounded(mappings, |roles|)
  {
    forall id | id in mappings && Bridges(mappings[id])
      ensures Bounded(mappings[id].inputs.value, |roles|) && Bounded(mappings[id].outputs.value, |roles|)
    {
      forall u | u in mappings[id].inputs.value ensures u < |roles| {
        assert FeedsGroup(u, id, nodes, roles, ins);
      }
      forall u | u in mappings[id].outputs.value ensures u < |roles| {
        assert FedByGroup(u, id, nodes, roles, outs);
      }
    }
  }

  /** Complete records, all linked: every predecessor feeding an id reaches
      every successor fed by it. */
  lemma BridgesLinked(mappings: map<string, Mapping>, order: seq<string>, nodes: seq<Id>, roles: seq<Role>,
                      ins: seq<seq<Id>>, outs: seq<seq<Id>>, in2: seq<seq<Id>>)
    requires |ins| == |roles| && |outs| == |roles| && |in2| == |roles|
    requires Complete(mappings, nodes, roles, ins, outs) && AllLinked(in2, mappings, order)
    requires forall id :: id in mappings <==> id in order
    ensures forall p: Id, s: Id, id :: FeedsGroup(p, id, nodes, roles, ins) && FedByGroup(s, id, nodes, roles, outs) ==> p in in2[s]
  {
    forall p: Id, s: Id, id | FeedsGroup(p, id, nodes, roles, ins) && FedByGroup(s, id, nodes, roles, outs)
      ensures p in in2[s]
    {
      var a :| a in nodes && a < |roles| && a < |ins| && roles[a] == Input(id) && p in ins[a];
      var b :| b in nodes && b < |roles| && b < |outs| && roles[b] == Output(id) && s in outs[b];
      var m := mappings[id];
      assert id in order;
      var k :| 0 <= k < |m.inputs.value| && m.inputs.value[k] == p;
      var j :| 0 <= j < |m.outputs.value| && m.outputs.value[j] == s;
    }
  }

  /** Sound records: every wired pair is bridged. */
  lemma WiredIsBridged(mappings: map<string, Mapping>, order: seq<string>, nodes: seq<Id>, roles: seq<Role>,
                       ins: seq<seq<Id>>, outs: seq<seq<Id>>, v: Id, w: Id)
    requires Sound(mappings, nodes, roles, ins, outs) && WiredBy(mappings, order, v, w)
    ensures Bridged(w, v, nodes, roles, ins, outs) && IsOutside(v, roles) && IsOutside(w, roles)
  {
    var id :| id in order && id in mappings && Bridges(mappings[id]) &&
      w in mappings[id].inputs.value && v in mappings[id].outputs.value;
    assert FeedsGroup(w, id, nodes, roles, ins) && FedByGroup(v, id, nodes, roles, outs);
  }

  /** What the two loops add up to: the lists of the stripped table,
      grown only by bridged pairs, and with the subgraph nodes lonely. */
  lemma StripThenWire(mappings: map<string, Mapping>, order: seq<string>, nodes: seq<Id>, roles: seq<Role>,
                      in0: seq<seq<Id>>, out0: seq<seq<Id>>, in1: seq<seq<Id>>, out1: seq<seq<Id>>,
                      in2: seq<seq<Id>>, out2: seq<seq<Id>>)
    requires |in0| == |roles| && |out0| == |roles| && |in2| == |roles| && |out2| == |roles|
    requires Sound(mappings, nodes, roles, in0, out0)
    requires Shrunk(in0, in1) && Shrunk(out0, out1) && Bounded(nodes, |roles|)
    requires forall v :: v in nodes && !IsOutside(v, roles) ==> in1[v] == [] && out1[v] == []
    requires InGainsWired(in1, in2, mappings, order) && OutGainsWired(out1, out2, mappings, order)
    ensures forall v, w :: 0 <= v < |in2| && w in in2[v] ==> w in in0[v] || Bridged(w, v, nodes, roles, in0, out0)
    ensures forall w, v :: 0 <= w < |out2| && v in out2[w] ==> v in out0[w] || Bridged(w, v, nodes, roles, in0, out0)
    ensures forall v :: v in nodes && !IsOutside(v, roles) ==> in2[v] == [] && out2[v] == []
  {
    forall v, w | 0 <= v < |in2| && w in in2[v] && w !in in1[v]
      ensures Bridged(w, v, nodes, roles, in0, out0) && IsOutside(v, roles)
    {
      WiredIsBridged(mappings, order, nodes, roles, in0, out0, v, w);
    }
    forall w, v | 0 <= w < |out2| && v in out2[w] && v !in out1[w]
      ensures Bridged(w, v, nodes, roles, in0, out0) && IsOutside(w, roles)
    {
      WiredIsBridged(mappings, order, nodes, roles, in0, out0, v, w);
    }
    forall v | v in nodes && !IsOutside(v, roles) ensures in2[v] == [] && out2[v] == [] {
      NoMemberIsEmpty(in2[v]);
      NoMemberIsEmpty(out2[v]);
    }
  }

  lemma NoMemberIsEmpty(s: seq<Id>)
    ensures (forall u :: u !in s) ==> s == []
  {
    if s != [] {
      assert s[0] in s;
    }
  }

  /** `optimize(graph:)` on a table, given every node's role: the listed
      subgraph nodes end up lonely; each outside predecessor of an input node
      gains, as successors, the outside successors of the output nodes of the
      same id; no other edge is added; and every edge between two nodes that
      are not listed subgraph nodes is kept. */
  method DeleteGroups(t: NodeTable, nodes: seq<Id>, roles: seq<Role>)
    requires t.Valid() && t.Size() == |roles| && Bounded(nodes, |roles|)
    modifies t
    ensures t.Valid() && t.Size() == old(t.Size())
    ensures forall v :: v in nodes && !IsOutside(v, roles) ==> t.IsLonely(v)
    ensures forall p: Id, s: Id, id :: FeedsGroup(p, id, nodes, roles, old(t.edgeIn)) && FedByGroup(s, id, nodes, roles, old(t.edgeOut)) ==>
      p in t.edgeIn[s]
    ensures forall v, w :: 0 <= v < t.Size() && w in t.edgeIn[v] ==>
      w in old(t.edgeIn)[v] || Bridged(w, v, nodes, roles, old(t.edgeIn), old(t.edgeOut))
    ensures forall w, v :: 0 <= w < t.Size() && v in t.edgeOut[w] ==>
      v in old(t.edgeOut)[w] || Bridged(w, v, nodes, roles, old(t.edgeIn), old(t.edgeOut))
    ensures Kept(old(t.edgeIn), t.edgeIn, Members(nodes, roles)) && Kept(old(t.edgeOut), t.edgeOut, Members(nodes, roles))
    ensures old(t.WellFormed()) ==> t.WellFormed()
  {
    var mappings, order := CollectAndStrip(t, nodes, roles);
    ghost var in1, out1 := t.edgeIn, t.edgeOut;
    SoundBounded(mappings, nodes, roles, old(t.edgeIn), old(t.edgeOut));
    WireGroups(t, mappings, order);
    BridgesLinked(mappings, order, nodes, roles, old(t.edgeIn), old(t.edgeOut), t.edgeIn);
    StripThenWire(mappings, order, nodes, roles, old(t.edgeIn), old(t.edgeOut), in1, out1, t.edgeIn, t.edgeOut);
  }

  /** With no input node, nothing is bridged, so a deleter only removes
      edges. */
  lemma NoInputsNoBridges(nodes: seq<Id>, roles: seq<Role>, ins: seq<seq<Id>>, outs: seq<seq<Id>>, p: Id, s: Id)
    requires forall v :: v in nodes && v < |roles| ==> !roles[v].Input?
    ensures !Bridged(p, s, nodes, roles, ins, outs)
  {
  }

  /** `optimize(graph:)` of a subgraph deleter: every node of the graph whose
      name the pattern matches is stripped; for dropout, an outside
      predecessor of a `Shape` node and an outside successor of a
      `dropout/mul` node with the same id are linked; nothing else is added,
      and the other deleters only remove edges; every edge between two nodes
      outside the subgraph is kept. */
  method DeleteSubgraph(g: TFGraph, d: Deleter)
    requires g.Valid()
    modifies g.table
    ensures g.Valid() && g.table.Size() == old(g.table.Size())
    ensures forall v :: v in g.nodes && InSubgraph(d, g.defs[v]) ==> g.table.IsLonely(v)
    ensures var roles := Roles(d, g.defs);
      forall p: Id, s: Id, id ::
        (FeedsGroup(p, id, g.nodes, roles, old(g.table.edgeIn)) && FedByGroup(s, id, g.nodes, roles, old(g.table.edgeOut))) ==>
        p in g.table.edgeIn[s]
    ensures var roles := Roles(d, g.defs);
      forall v, w :: 0 <= v < g.table.Size() && w in g.table.edgeIn[v] ==>
        w in old(g.table.edgeIn)[v] || Bridged(w, v, g.nodes, roles, old(g.table.edgeIn), old(g.table.edgeOut))
    ensures var roles := Roles(d, g.defs);
      forall w, v :: 0 <= w < g.table.Size() && v in g.table.edgeOut[w] ==>
        v in old(g.table.edgeOut)[w] || Bridged(w, v, g.nodes, roles, old(g.table.edgeIn), old(g.table.edgeOut))
    ensures d != DeleteDropout ==> Shrunk(old(g.table.edgeIn), g.table.edgeIn) && Shrunk(old(g.table.edgeOut), g.table.edgeOut)
    ensures var members := set v | v in g.nodes && InSubgraph(d, g.defs[v]);
      Kept(old(g.table.edgeIn), g.table.edgeIn, members) && Kept(old(g.table.edgeOut), g.table.edgeOut, members)
    ensures old(g.table.WellFormed()) ==> g.table.WellFormed()
  {
    var roles := Roles(d, g.defs);
    DeleteGroups(g.table, g.nodes, roles);
    RolesMembers(d, g.defs, g.nodes);
    if d != DeleteDropout {
      DefaultsNoBridges(d, g.defs, g.nodes, old(g.table.edgeIn), old(g.table.edgeOut));
    }
  }

  /** The nodes a deleter's roles put inside the subgraph are its matches. */
  lemma RolesMembers(d: Deleter, defs: seq<NodeDef>, nodes: seq<Id>)
    requires Bounded(nodes, |defs|)
    ensures Members(nodes, Roles(d, defs)) == set v | v in nodes && InSubgraph(d, defs[v])
  {
  }

  /** A deleter other than dropout bridges nothing. */
  lemma DefaultsNoBridges(d: Deleter, defs: seq<NodeDef>, nodes: seq<Id>, ins: seq<seq<Id>>, outs: seq<seq<Id>>)
    requires d != DeleteDropout
    ensures forall p, s :: !Bridged(p, s, nodes, Roles(d, defs), ins, outs)
  {
    var roles := Roles(d, defs);
    forall v | v in nodes && v < |roles| ensures !roles[v].Input? {
      DefaultsNeverRewire(d, defs[v]);
    }
    forall p, s ensures !Bridged(p, s, nodes, roles, ins, outs) {
      NoInputsNoBridges(nodes, roles, ins, outs, p, s);
    }
  }
}
