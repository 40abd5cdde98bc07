/** The local rewrites of a `TFGraph` that strip and remove nodes:
    `addNeuronIfThere` (Sources/Adapters/TFOptimizer.swift), the training-op
    stripper and the ignored-op deleter
    (Sources/Adapters/Tensorflow/TFDeleteOptimizers.swift) and the Reshape
    remover (Sources/Adapters/Tensorflow/TFReshapeOptimizer.swift).

    An optimizer leaves the nodes it removes without adjacencies; the node
    list itself is pruned afterwards by `removeLonely`. */
module TFOptimizers {
  import opened Wrappers
  import opened SeqUtil
  import opened Graph
  import opened TFProto
  import opened TFNames
  import opened TFGraphs

  /** Every entry of `lists0` between two nodes outside `gone` is still in
      `lists1`. */
  ghost predicate Kept(lists0: seq<seq<Id>>, lists1: seq<seq<Id>>, gone: set<Id>) {
    |lists1| == |lists0| &&
    forall v: Id, w: Id :: 0 <= v < |lists1| && v !in gone && w !in gone && w in lists0[v] ==> w in lists1[v]
  }

  /** Keeping the entries outside a larger set after those outside a smaller one. */
  lemma KeptTrans(lists0: seq<seq<Id>>, lists1: seq<seq<Id>>, lists2: seq<seq<Id>>, gone: set<Id>, step: set<Id>)
    requires Kept(lists0, lists1, gone) && Kept(lists1, lists2, step) && step <= gone
    ensures Kept(lists0, lists2, gone)
  {
  }

  /** Editing around one node of `gone` keeps the entries between the others. */
  lemma KeptStep(lists0: seq<seq<Id>>, lists1: seq<seq<Id>>, lists2: seq<seq<Id>>, gone: set<Id>, x: Id)
    requires Kept(lists0, lists1, gone) && KeepsOthers(lists1, lists2, x) && x in gone
    ensures Kept(lists0, lists2, gone)
  {
  }

  /** What `removeFromGraph` of `x` may give node `y`: only entries it had,
      or those linking a predecessor of `x` to a successor of `x`. */
  lemma RemovedGains(x: Id, y: Id, in0: seq<seq<Id>>, out0: seq<seq<Id>>, in3: seq<seq<Id>>, out3: seq<seq<Id>>)
    requires x < |in0| == |out0| && y < |in0| && RemovedFrom(x, in0, out0, in3, out3)
    ensures forall w :: w in in3[y] ==> w in in0[y] || (w in in0[x] && y in out0[x])
    ensures forall v :: v in out3[y] ==> v in out0[y] || (y in in0[x] && v in out0[x])
  {
    forall v | v in out3[y] ensures v in out0[y] || (y in in0[x] && v in out0[x]) {
      var inX, outX := y in in0[x], v in out0[x];
    }
  }

  /** Removing `x` from a well-formed graph cannot give an edge to a node
      that was lonely, since a lonely node is nobody's neighbour. */
  lemma LonelyStaysLonely(x: Id, y: Id, in0: seq<seq<Id>>, out0: seq<seq<Id>>, in3: seq<seq<Id>>, out3: seq<seq<Id>>)
    requires x < |in0| && y < |in0| && WasWellFormed(in0, out0) && RemovedFrom(x, in0, out0, in3, out3)
    requires in0[y] == [] && out0[y] == []
    ensures in3[y] == [] && out3[y] == []
  {
    RemovedGains(x, y, in0, out0, in3, out3);
    HeadIn(in3[y]);
    HeadIn(out3[y]);
  }

  /** A non-empty list holds its first entry. */
  lemma HeadIn(s: seq<Id>)
    ensures s != [] ==> s[0] in s
  {
  }

  // ---------------------------------------------------------------------
  // Passes over the node list

  /** The edge lists of the graph at one moment of a pass. */
  datatype Tables = Tables(ins: seq<seq<Id>>, outs: seq<seq<Id>>)

  ghost function TablesOf(t: NodeTable): Tables
    reads t
  {
    Tables(t.edgeIn, t.edgeOut)
  }

  /** Node `x` has no entry in the lists `s`. */
  ghost predicate LonelyIn(s: Tables, x: Id) {
    x < |s.ins| && x < |s.outs| && s.ins[x] == [] && s.outs[x] == []
  }

  /** The only entries `s1` holds beyond those of `s0` link a node of
      `sources` to a node of `targets`. */
  ghost predicate GainsOnly(s0: Tables, s1: Tables, sources: seq<Id>, targets: seq<Id>) {
    |s1.ins| == |s0.ins| && |s1.outs| == |s0.outs| &&
    (forall v: Id, w: Id :: 0 <= v < |s1.ins| && w in s1.ins[v] ==> w in s0.ins[v] || Links(w, v, sources, targets)) &&
    (forall w: Id, v: Id :: 0 <= w < |s1.outs| && v in s1.outs[w] ==> v in s0.outs[w] || Links(w, v, sources, targets))
  }

  /** The edge from `w` to `v` leads from a node of `sources` to a node of `targets`. */
  ghost predicate Links(w: Id, v: Id, sources: seq<Id>, targets: seq<Id>) {
    w in sources && v in targets
  }

  /** A pass of `for node in graph.nodes { … }` over `nodes` went through the
      states of `trace`: `trace[k]` is the state before `nodes[k]` is
      visited, and each visit is one `visit` step. */
  ghost predicate Trace<S>(nodes: seq<Id>, trace: seq<S>, visit: (Id, S, S) -> bool) {
    |trace| == |nodes| + 1 && forall k :: 0 <= k < |nodes| ==> visit(nodes[k], trace[k], trace[k + 1])
  }

  /** Every node of the pass met `p` in the state it was visited in. */
  ghost predicate EachVisit<S>(nodes: seq<Id>, trace: seq<S>, p: (Id, S) -> bool) {
    forall k :: 0 <= k < |nodes| && k < |trace| ==> p(nodes[k], trace[k])
  }

  /** The pass after one more visit. */
  lemma TracePush<S>(nodes: seq<Id>, trace: seq<S>, visit: (Id, S, S) -> bool, p: (Id, S) -> bool, i: nat, s: S)
    requires i < |nodes| && Trace(nodes[..i], trace, visit) && visit(nodes[i], trace[i], s)
    ensures Trace(nodes[..i + 1], trace + [s], visit)
    ensures EachVisit(nodes[..i + 1], trace + [s], p) <==> EachVisit(nodes[..i], trace, p) && p(nodes[i], trace[i])
  {
    var l := nodes[..i + 1];
    var r := trace + [s];
    forall k | 0 <= k < |l| ensures visit(l[k], r[k], r[k + 1]) {
      if k < i {
        assert l[k] == nodes[..i][k] && r[k] == trace[k] && r[k + 1] == trace[k + 1];
      }
    }
    if EachVisit(nodes[..i], trace, p) && p(nodes[i], trace[i]) {
      forall k | 0 <= k < |l| && k < |r| ensures p(l[k], r[k]) {
        if k < i {
          assert l[k] == nodes[..i][k] && r[k] == trace[k];
        }
      }
    }
    if EachVisit(l, r, p) {
      forall k | 0 <= k < i && k < |trace| ensures p(nodes[..i][k], trace[k]) {
        assert l[k] == nodes[..i][k] && r[k] == trace[k];
      }
      assert p(l[i], r[i]);
    }
  }

  // ---------------------------------------------------------------------
  // addNeuronIfThere

  /** The neuron `addNeuronIfThere` folds: the only successor, when its op
      is Relu, Tanh or Sigmoid. */
  function NeuronAfter(outs: seq<Id>, defs: seq<NodeDef>): (r: Option<Id>)
    ensures r.Some? <==> |outs| == 1 && outs[0] < |defs| && IsNeuron(defs[outs[0]].op)
    ensures r.Some? ==> r.value == outs[0]
  {
    if |outs| == 1 && outs[0] < |defs| && IsNeuron(defs[outs[0]].op) then Some(outs[0]) else None
  }

  /** The graph at one moment of a pass that also rewrites definitions. */
  datatype GraphState = GraphState(ins: seq<seq<Id>>, outs: seq<seq<Id>>, defs: seq<NodeDef>)

  ghost function StateOf(g: TFGraph): GraphState
    reads g, g.table
  {
    GraphState(g.table.edgeIn, g.table.edgeOut, g.defs)
  }

  /** What `addNeuronIfThere(node:)` does to the graph `s0`, leaving `s1`:
      when the only successor `next` of `node` is a Relu, Tanh or Sigmoid,
      that op is recorded in the node's `neuron` attribute, `next` ends
      lonely, its successors gain `node` as an incoming node, no entry
      between two nodes other than `next` is lost, and the only entries
      gained link `node` to a successor of `next`; otherwise nothing
      changes. */
  ghost predicate NeuronAdded(node: Id, s0: GraphState, s1: GraphState) {
    node < |s0.defs| == |s0.ins| == |s0.outs| &&
    var n := NeuronAfter(s0.outs[node], s0.defs);
    if n.None? then
      s1 == s0
    else
      var next := n.value;
      var def := s0.defs[node];
      |s1.ins| == |s1.outs| == |s0.ins| &&
      s1.defs == s0.defs[node := def.(attr := def.attr["neuron" := StringAttr(s0.defs[next].op)])] &&
      ActivationNeuronOf(s1.defs[node]) != NoNeuron &&
      s1.ins[next] == [] && s1.outs[next] == [] &&
      (next != node ==> forall s :: s in s0.outs[next] && s != next && s < |s1.ins| ==> node in s1.ins[s]) &&
      Kept(s0.ins, s1.ins, {next}) && Kept(s0.outs, s1.outs, {next}) &&
      GainsOnly(Tables(s0.ins, s0.outs), Tables(s1.ins, s1.outs), [node], s0.outs[next])
  }

  /** `addNeuronIfThere(node:)`, as `NeuronAdded` states. */
  method AddNeuronIfThere(g: TFGraph, node: Id)
    requires g.Valid() && g.table.Has(node)
    modifies g.table, g`defs
    ensures g.Valid() && g.table.Size() == old(g.table.Size())
    ensures NeuronAdded(node, old(StateOf(g)), StateOf(g))
    ensures old(g.table.WellFormed()) ==> g.table.WellFormed()
  {
    var t := g.table;
    var n := NeuronAfter(t.edgeOut[node], g.defs);
    if n.Some? {
      var next := n.value;
      var def := g.defs[node];
      NeuronRoundTrip(def, g.defs[next].op);
      g.defs := g.defs[node := def.(attr := def.attr["neuron" := StringAttr(g.defs[next].op)])];
      ghost var wf0 := t.WellFormed();
      var succs := t.edgeOut[next];
      BoundedIsBoundedAt(succs, t.Size());
      t.AddIncomingEdgeToAll(succs, node);
      assert wf0 ==> t.MirroredAway(t.Size());
      ghost var in1 := t.edgeIn;
      forall s | s in succs ensures node in in1[s] {
        var k :| 0 <= k < |succs| && succs[k] == s;
      }
      ghost var out1 := t.edgeOut;
      t.Strip(next);
      NeuronFrame(old(t.edgeIn), old(t.edgeOut), in1, out1, t.edgeIn, t.edgeOut, node, next, succs);
    }
  }

  /** The lists through `addNeuronIfThere`'s two steps: linking `node` to
      the successors `succs` of `next`, then stripping `next`. */
  lemma NeuronFrame(in0: seq<seq<Id>>, out0: seq<seq<Id>>, in1: seq<seq<Id>>, out1: seq<seq<Id>>,
                    in2: seq<seq<Id>>, out2: seq<seq<Id>>, node: Id, next: Id, succs: seq<Id>)
    requires AddedToAll(in0, out0, in1, out1, node, succs) && node < |in0|
    requires Shrunk(in1, in2) && Shrunk(out1, out2) && KeepsOthers(in1, in2, next) && KeepsOthers(out1, out2, next)
    ensures Kept(in0, in2, {next}) && Kept(out0, out2, {next})
    ensures GainsOnly(Tables(in0, out0), Tables(in2, out2), [node], succs)
  {
    forall v: Id, w: Id | 0 <= v < |in2| && w in in2[v] ensures w in in0[v] || (w in [node] && v in succs) {
      if v !in succs {
        assert in1[v] == in0[v];
      }
    }
    forall w: Id, v: Id | 0 <= w < |out2| && v in out2[w] ensures v in out0[w] || (w in [node] && v in succs) {
      if w != node {
        assert out1[w] == out0[w];
      }
    }
  }

  // ---------------------------------------------------------------------
  // TFStripTrainingOps

  /** The names `TFStripTrainingOps` strips: a match of the save, regularizer
      or initializer pattern. */
  predicate IsTrainingName(name: string) {
    Test(name, SavePattern) || Test(name, RegularizerPattern) || Test(name, InitializerPattern)
  }

  /** The nodes of a graph with a training name. */
  ghost function TrainingNodes(defs: seq<NodeDef>): set<Id> {
    Selected(defs, (d: NodeDef) => IsTrainingName(d.name))
  }

  /** The nodes of `defs` that `selected` picks. */
  ghost function Selected(defs: seq<NodeDef>, selected: NodeDef -> bool): set<Id> {
    set v: Id | 0 <= v < |defs| && selected(defs[v])
  }

  /** `for node in nodes where selected(node) { node.strip() }`: every picked
      node of the list is stripped; no edge is added and the edges between
      unpicked nodes are kept. */
  method StripWhere(t: NodeTable, nodes: seq<Id>, defs: seq<NodeDef>, selected: NodeDef -> bool)
    requires t.Valid() && t.Size() == |defs| && Bounded(nodes, |defs|)
    modifies t
    ensures t.Valid() && t.Size() == old(t.Size())
    ensures forall v :: v in nodes && selected(defs[v]) ==> t.IsLonely(v)
    ensures forall v :: 0 <= v < t.Size() && old(t.IsLonely(v)) ==> t.IsLonely(v)
    ensures Shrunk(old(t.edgeIn), t.edgeIn) && Shrunk(old(t.edgeOut), t.edgeOut)
    ensures Kept(old(t.edgeIn), t.edgeIn, Selected(defs, selected))
    ensures Kept(old(t.edgeOut), t.edgeOut, Selected(defs, selected))
    ensures old(t.WellFormed()) ==> t.WellFormed()
  {
    ghost var gone := Selected(defs, selected);
    BoundedIsBoundedAt(nodes, |defs|);
    for i := 0 to |nodes|
      invariant t.Valid() && t.Size() == |defs|
      invariant forall k :: 0 <= k < i && selected(defs[nodes[k]]) ==> t.IsLonely(nodes[k])
      invariant forall v :: 0 <= v < t.Size() && old(t.IsLonely(v)) ==> t.IsLonely(v)
      invariant Shrunk(old(t.edgeIn), t.edgeIn) && Shrunk(old(t.edgeOut), t.edgeOut)
      invariant Kept(old(t.edgeIn), t.edgeIn, gone) && Kept(old(t.edgeOut), t.edgeOut, gone)
      invariant old(t.WellFormed()) ==> t.WellFormed()
    {
      var v := nodes[i];
      if selected(defs[v]) {
        ghost var in1, out1 := t.edgeIn, t.edgeOut;
        t.Strip(v);
        KeptStep(old(t.edgeIn), in1, t.edgeIn, gone, v);
        KeptStep(old(t.edgeOut), out1, t.edgeOut, gone, v);
      }
    }
    forall v | v in nodes && selected(defs[v]) ensures t.IsLonely(v) {
      var k :| 0 <= k < |nodes| && nodes[k] == v;
    }
  }

  /** `TFStripTrainingOps.optimize`: every listed node with a training name
      is stripped; no edge is added and the edges between the other nodes
      are kept. */
  method StripTrainingOps(g: TFGraph)
    requires g.Valid()
    modifies g.table
    ensures g.Valid() && g.table.Size() == old(g.table.Size())
    ensures forall v :: v in g.nodes && IsTrainingName(g.defs[v].name) ==> g.table.IsLonely(v)
    ensures forall v :: 0 <= v < g.table.Size() && old(g.table.IsLonely(v)) ==> g.table.IsLonely(v)
    ensures Shrunk(old(g.table.edgeIn), g.table.edgeIn) && Shrunk(old(g.table.edgeOut), g.table.edgeOut)
    ensures Kept(old(g.table.edgeIn), g.table.edgeIn, TrainingNodes(g.defs))
    ensures Kept(old(g.table.edgeOut), g.table.edgeOut, TrainingNodes(g.defs))
    ensures old(g.table.WellFormed()) ==> g.table.WellFormed()
  {
    StripWhere(g.table, g.nodes, g.defs, (d: NodeDef) => IsTrainingName(d.name));
  }

  // ---------------------------------------------------------------------
  // TFIgnoredOpsDeleter

  /** The ops `TFIgnoredOpsDeleter` removes. */
  const IgnoredOps: seq<string> := ["NoOp", "ExpandDims", "Cast", "Squeeze", "StopGradient", "CheckNumerics",
    "Assert", "Equal", "All", "Dequantize", "RequantizationRange", "Requantize", "PlaceholderWithDefault", "Identity"]

  ghost function IgnoredNodes(defs: seq<NodeDef>): set<Id> {
    set v: Id | 0 <= v < |defs| && defs[v].op in IgnoredOps
  }

  /** One visit of `TFIgnoredOpsDeleter`'s loop, from the lists `s0` to the
      lists `s1`: a node with an ignored op is removed from the graph (its
      predecessors linked to its successors, see `RemovedFrom`) and left
      lonely; any other node leaves the lists as they are. */
  ghost predicate IgnoredVisit(defs: seq<NodeDef>, v: Id, s0: Tables, s1: Tables) {
    v < |defs| == |s0.ins| == |s0.outs| &&
    if defs[v].op in IgnoredOps then
      RemovedFrom(v, s0.ins, s0.outs, s1.ins, s1.outs) && s1.ins[v] == [] && s1.outs[v] == []
    else
      s1 == s0
  }

  /** Node `v`, when it is removed, is not its own predecessor. */
  ghost predicate IgnoredClean(defs: seq<NodeDef>, v: Id, s: Tables) {
    v < |defs| && defs[v].op in IgnoredOps && v < |s.ins| ==> v !in s.ins[v]
  }

  /** `TFIgnoredOpsDeleter.optimize`: the pass visits the listed nodes in
      order and removes each one with an ignored op from the lists current at
      that moment; `trace` holds those lists. The edges between the other
      nodes are kept. `loopFree` says exactly that no removed node was its
      own predecessor when removed; then a well-formed graph stays
      well-formed and every removed node ends lonely. */
  method IgnoredOpsDeleter(g: TFGraph) returns (ghost trace: seq<Tables>, ghost loopFree: bool)
    requires g.Valid()
    modifies g.table
    ensures g.Valid() && g.table.Size() == old(g.table.Size())
    ensures var defs := g.defs;
      Trace(g.nodes, trace, (v, s0, s1) => IgnoredVisit(defs, v, s0, s1)) &&
      trace[0] == old(TablesOf(g.table)) && trace[|g.nodes|] == TablesOf(g.table) &&
      (loopFree <==> EachVisit(g.nodes, trace, (v, s) => IgnoredClean(defs, v, s)))
    ensures Kept(old(g.table.edgeIn), g.table.edgeIn, IgnoredNodes(g.defs))
    ensures Kept(old(g.table.edgeOut), g.table.edgeOut, IgnoredNodes(g.defs))
    ensures old(g.table.WellFormed()) && loopFree ==>
      g.table.WellFormed() && forall v :: v in g.nodes && g.defs[v].op in IgnoredOps ==> g.table.IsLonely(v)
  {
    var t := g.table;
    var nodes := g.nodes;
    var defs := g.defs;
    ghost var gone := IgnoredNodes(defs);
    ghost var visit := (v, s0, s1) => IgnoredVisit(defs, v, s0, s1);
    ghost var clean := (v, s) => IgnoredClean(defs, v, s);
    BoundedIsBoundedAt(nodes, |defs|);
    trace := [TablesOf(t)];
    loopFree := true;
    for i := 0 to |nodes|
      invariant t.Valid() && t.Size() == |defs| && BoundedAt(nodes, |defs|)
      invariant Trace(nodes[..i], trace, visit) && trace[0] == old(TablesOf(t)) && trace[i] == TablesOf(t)
      invariant loopFree <==> EachVisit(nodes[..i], trace, clean)
      invariant Kept(old(t.edgeIn), t.edgeIn, gone) && Kept(old(t.edgeOut), t.edgeOut, gone)
      invariant old(t.WellFormed()) && loopFree ==>
        t.WellFormed() && forall k :: 0 <= k < i && defs[nodes[k]].op in IgnoredOps ==> LonelyIn(TablesOf(t), nodes[k])
    {
      var v := nodes[i];
      ghost var s0 := TablesOf(t);
      IgnoredStep(t, defs, v, old(t.edgeIn), old(t.edgeOut), gone);
      loopFree := loopFree && IgnoredClean(defs, v, s0);
      assert visit(v, s0, TablesOf(t));
      TracePush(nodes, trace, visit, clean, i, TablesOf(t));
      trace := trace + [TablesOf(t)];
    }
    assert nodes[..|nodes|] == nodes;
    forall v | v in nodes && defs[v].op in IgnoredOps && old(t.WellFormed()) && loopFree ensures t.IsLonely(v) {
      var k :| 0 <= k < |nodes| && nodes[k] == v;
      assert LonelyIn(TablesOf(t), nodes[k]);
    }
  }

  /** One visit of `TFIgnoredOpsDeleter`'s loop: node `v` is handled as
      `IgnoredVisit` states, the edges between nodes outside `gone` are
      kept, and, when `v` is not removed while its own predecessor, a
      well-formed graph stays well-formed and no lonely node gains an
      edge. */
  method IgnoredStep(t: NodeTable, defs: seq<NodeDef>, v: Id, ghost in0: seq<seq<Id>>, ghost out0: seq<seq<Id>>, ghost gone: set<Id>)
    requires t.Valid() && t.Size() == |defs| && v < |defs|
    requires defs[v].op in IgnoredOps ==> v in gone
    requires Kept(in0, t.edgeIn, gone) && Kept(out0, t.edgeOut, gone)
    modifies t
    ensures t.Valid() && t.Size() == old(t.Size())
    ensures IgnoredVisit(defs, v, old(TablesOf(t)), TablesOf(t))
    ensures Kept(in0, t.edgeIn, gone) && Kept(out0, t.edgeOut, gone)
    ensures old(t.WellFormed()) && IgnoredClean(defs, v, old(TablesOf(t))) ==>
      t.WellFormed() && forall x :: LonelyIn(old(TablesOf(t)), x) ==> LonelyIn(TablesOf(t), x)
  {
    if defs[v].op in IgnoredOps {
      ghost var in1, out1 := t.edgeIn, t.edgeOut;
      t.RemoveFromGraph(v);
      KeptStep(in0, in1, t.edgeIn, gone, v);
      assert KeepsOthers(out1, t.edgeOut, v);
      KeptStep(out0, out1, t.edgeOut, gone, v);
      if old(t.WellFormed()) && v !in in1[v] {
        forall x | LonelyIn(Tables(in1, out1), x) ensures LonelyIn(TablesOf(t), x) {
          LonelyStaysLonely(v, x, in1, out1, t.edgeIn, t.edgeOut);
        }
      }
    }
  }

  // ---------------------------------------------------------------------
  // first(where:)

  /** Node `u` is a node of the graph whose definition passes `test`. */
  predicate Picked(u: Id, defs: seq<NodeDef>, test: NodeDef -> bool) {
    u < |defs| && test(defs[u])
  }

  /** The index of the first node of `list` that passes `test`, or `|list|`. */
  function FirstPick(list: seq<Id>, defs: seq<NodeDef>, test: NodeDef -> bool): (k: nat)
    ensures k <= |list|
    ensures k < |list| ==> Picked(list[k], defs, test)
    ensures forall j :: 0 <= j < k ==> !Picked(list[j], defs, test)
    decreases |list|
  {
    if list == [] then 0
    else if Picked(list[0], defs, test) then 0
    else 1 + FirstPick(list[1..], defs, test)
  }

  /** `list.first(where: test)`. */
  function FirstWhere(list: seq<Id>, defs: seq<NodeDef>, test: NodeDef -> bool): (r: Option<Id>)
    ensures r.None? <==> forall u :: u in list ==> !Picked(u, defs, test)
    ensures r.Some? ==> r.value in list && Picked(r.value, defs, test)
  {
    var k := FirstPick(list, defs, test);
    if k < |list| then Some(list[k])
    else
      assert forall u :: u in list ==> !Picked(u, defs, test) by {
        forall u | u in list ensures !Picked(u, defs, test) {
          var j :| 0 <= j < |list| && list[j] == u;
        }
      }
      None
  }

  predicate IsConstDef(def: NodeDef) {
    def.op == TFNames.Const
  }

  predicate IsReshapeOrConstDef(def: NodeDef) {
    def.op == TFNames.Reshape || def.op == TFNames.Const
  }

  // ---------------------------------------------------------------------
  // TFReshapeOptimizer

  /** What visiting the Reshape node `v` does to the lists `s0`, leaving
      `s1`: without a Const input nothing changes; otherwise, with `c` the
      first Const input, `v` ends lonely, every predecessor of `v` other
      than `c` is linked to every successor of `v` other than `c` and `v`,
      no entry between two nodes other than `c` and `v` is lost, and the
      only entries gained link a predecessor of `v` to a successor of `v`. */
  ghost predicate ReshapeRemoved(defs: seq<NodeDef>, v: Id, s0: Tables, s1: Tables) {
    v < |s0.ins| == |s0.outs| &&
    var c := FirstWhere(s0.ins[v], defs, IsConstDef);
    if c.None? then
      s1 == s0
    else
      |s1.ins| == |s1.outs| == |s0.ins| && s1.ins[v] == [] && s1.outs[v] == [] &&
      (forall p, s :: p in s0.ins[v] && s in s0.outs[v] && p != c.value && s != c.value && s != v && s < |s1.ins| ==>
         p in s1.ins[s]) &&
      Kept(s0.ins, s1.ins, {c.value, v}) && Kept(s0.outs, s1.outs, {c.value, v}) &&
      GainsOnly(s0, s1, s0.ins[v], s0.outs[v])
  }

  /** Node `v`, when it is removed as a Reshape with a Const input, is not
      its own predecessor. */
  ghost predicate ReshapeClean(defs: seq<NodeDef>, v: Id, s: Tables) {
    v < |defs| && defs[v].op == TFNames.Reshape && v < |s.ins| && FirstWhere(s.ins[v], defs, IsConstDef).Some? ==>
      v !in s.ins[v]
  }

  /** One Reshape node `v`: when one of its inputs is a Const, the first
      such shape node is stripped and `v` is removed, its remaining
      predecessors linked to its successors; otherwise nothing changes.
      `loopFree` says exactly that `v` is not removed while being its own
      predecessor; then a well-formed graph stays well-formed and the shape
      node ends lonely. */
  method RemoveReshape(g: TFGraph, v: Id) returns (ghost loopFree: bool)
    requires g.Valid() && g.table.Has(v) && g.defs[v].op == TFNames.Reshape
    modifies g.table
    ensures g.Valid() && g.table.Size() == old(g.table.Size())
    ensures ReshapeRemoved(g.defs, v, old(TablesOf(g.table)), TablesOf(g.table))
    ensures loopFree <==> ReshapeClean(g.defs, v, old(TablesOf(g.table)))
    ensures var c := FirstWhere(old(g.table.edgeIn[v]), g.defs, IsConstDef);
      c.Some? && old(g.table.WellFormed()) && loopFree ==> g.table.WellFormed() && g.table.IsLonely(c.value)
  {
    var t := g.table;
    var c := FirstWhere(t.edgeIn[v], g.defs, IsConstDef);
    loopFree := true;
    if c.Some? {
      var shape := c.value;
      ghost var gone := {shape, v};
      ghost var wf0 := t.WellFormed();
      assert shape != v by {
        assert IsConstDef(g.defs[shape]);
      }
      t.Strip(shape);
      ghost var in1, out1 := t.edgeIn, t.edgeOut;
      assert v in in1[v] <==> v in old(t.edgeIn[v]);
      loopFree := v !in t.edgeIn[v];
      t.RemoveFromGraph(v);
      KeptStep(old(t.edgeIn), old(t.edgeIn), in1, gone, shape);
      KeptStep(old(t.edgeIn), in1, t.edgeIn, gone, v);
      assert KeepsOthers(out1, t.edgeOut, v);
      KeptStep(old(t.edgeOut), old(t.edgeOut), out1, gone, shape);
      KeptStep(old(t.edgeOut), out1, t.edgeOut, gone, v);
      forall p, s | p in old(t.edgeIn[v]) && s in old(t.edgeOut[v]) && p != shape && s != shape && s != v && s < t.Size()
        ensures p in t.edgeIn[s]
      {
        assert p in in1[v] && s in out1[v];
      }
      ShrunkRemovedGains(v, old(TablesOf(t)), Tables(in1, out1), TablesOf(t));
      if wf0 && loopFree {
        LonelyStaysLonely(v, shape, in1, out1, t.edgeIn, t.edgeOut);
      }
    }
  }

  /** Entries gained by removing `v` after only shrinking the lists link a
      former predecessor of `v` to a former successor of `v`. */
  lemma ShrunkRemovedGains(x: Id, s0: Tables, s1: Tables, s2: Tables)
    requires x < |s0.ins| == |s0.outs| && Shrunk(s0.ins, s1.ins) && Shrunk(s0.outs, s1.outs)
    requires RemovedFrom(x, s1.ins, s1.outs, s2.ins, s2.outs)
    ensures GainsOnly(s0, s2, s0.ins[x], s0.outs[x])
  {
    forall v: Id, w: Id | 0 <= v < |s2.ins| && w in s2.ins[v] ensures w in s0.ins[v] || Links(w, v, s0.ins[x], s0.outs[x]) {
      RemovedGains(x, v, s1.ins, s1.outs, s2.ins, s2.outs);
    }
    forall w: Id, v: Id | 0 <= w < |s2.outs| && v in s2.outs[w] ensures v in s0.outs[w] || Links(w, v, s0.ins[x], s0.outs[x]) {
      RemovedGains(x, w, s1.ins, s1.outs, s2.ins, s2.outs);
      if v !in s1.outs[w] {
        assert w in s1.ins[x] && v in s1.outs[x];
      }
    }
  }

  /** One visit of `TFReshapeOptimizer`'s loop: a Reshape node is handled
      by `RemoveReshape`, any other node leaves the lists as they are. */
  ghost predicate ReshapeVisit(defs: seq<NodeDef>, v: Id, s0: Tables, s1: Tables) {
    v < |defs| &&
    if defs[v].op == TFNames.Reshape then ReshapeRemoved(defs, v, s0, s1) else s1 == s0
  }

  /** One visit of `TFReshapeOptimizer`'s loop: node `v` is handled as
      `ReshapeVisit` states, and the edges between nodes that are neither
      Reshape nor Const are kept. */
  method ReshapeStep(g: TFGraph, v: Id, ghost in0: seq<seq<Id>>, ghost out0: seq<seq<Id>>, ghost gone: set<Id>)
    requires g.Valid() && g.table.Has(v) && gone == Selected(g.defs, IsReshapeOrConstDef)
    requires Kept(in0, g.table.edgeIn, gone) && Kept(out0, g.table.edgeOut, gone)
    modifies g.table
    ensures g.Valid() && g.table.Size() == old(g.table.Size())
    ensures ReshapeVisit(g.defs, v, old(TablesOf(g.table)), TablesOf(g.table))
    ensures Kept(in0, g.table.edgeIn, gone) && Kept(out0, g.table.edgeOut, gone)
    ensures old(g.table.WellFormed()) && ReshapeClean(g.defs, v, old(TablesOf(g.table))) ==> g.table.WellFormed()
  {
    if g.defs[v].op == TFNames.Reshape {
      var c := FirstWhere(g.table.edgeIn[v], g.defs, IsConstDef);
      ghost var clean := RemoveReshape(g, v);
      if c.Some? {
        KeptTrans(in0, old(g.table.edgeIn), g.table.edgeIn, gone, {c.value, v});
        KeptTrans(out0, old(g.table.edgeOut), g.table.edgeOut, gone, {c.value, v});
      }
    }
  }

  /** `TFReshapeOptimizer.optimize`: the pass visits the listed nodes in
      order and handles each Reshape node as `RemoveReshape` does, on the
      lists current at that moment; `trace` holds those lists. The edges
      between nodes that are neither Reshape nor Const are kept. `loopFree`
      says exactly that no removed node was its own predecessor when
      removed; then a well-formed graph stays well-formed. */
  method ReshapeOptimizer(g: TFGraph) returns (ghost trace: seq<Tables>, ghost loopFree: bool)
    requires g.Valid()
    modifies g.table
    ensures g.Valid() && g.table.Size() == old(g.table.Size())
    ensures var defs := g.defs;
      Trace(g.nodes, trace, (v, s0, s1) => ReshapeVisit(defs, v, s0, s1)) &&
      trace[0] == old(TablesOf(g.table)) && trace[|g.nodes|] == TablesOf(g.table) &&
      (loopFree <==> EachVisit(g.nodes, trace, (v, s) => ReshapeClean(defs, v, s)))
    ensures Kept(old(g.table.edgeIn), g.table.edgeIn, Selected(g.defs, IsReshapeOrConstDef))
    ensures Kept(old(g.table.edgeOut), g.table.edgeOut, Selected(g.defs, IsReshapeOrConstDef))
    ensures old(g.table.WellFormed()) && loopFree ==> g.table.WellFormed()
  {
    var nodes := g.nodes;
    ghost var defs := g.defs;
    ghost var gone := Selected(g.defs, IsReshapeOrConstDef);
    ghost var visit := (v, s0, s1) => ReshapeVisit(defs, v, s0, s1);
    ghost var clean := (v, s) => ReshapeClean(defs, v, s);
    BoundedIsBoundedAt(nodes, |g.defs|);
    trace := [TablesOf(g.table)];
    loopFree := true;
    for i := 0 to |nodes|
      invariant g.Valid() && g.table.Size() == |g.defs| && BoundedAt(nodes, |g.defs|)
      invariant Trace(nodes[..i], trace, visit) && trace[0] == old(TablesOf(g.table)) && trace[i] == TablesOf(g.table)
      invariant loopFree <==> EachVisit(nodes[..i], trace, clean)
      invariant Kept(old(g.table.edgeIn), g.table.edgeIn, gone) && Kept(old(g.table.edgeOut), g.table.edgeOut, gone)
      invariant old(g.table.WellFormed()) && loopFree ==> g.table.WellFormed()
    {
      var v := nodes[i];
      ghost var s0 := TablesOf(g.table);
      ReshapeStep(g, v, old(g.table.edgeIn), old(g.table.edgeOut), gone);
      loopFree := loopFree && ReshapeClean(defs, v, s0);
      assert visit(v, s0, TablesOf(g.table));
      TracePush(nodes, trace, visit, clean, i, TablesOf(g.table));
      trace := trace + [TablesOf(g.table)];
    }
    assert nodes[..|nodes|] == nodes;
  }
}
