/** `Network`, Sources/Core/Network.swift: the execution list of a network and
    the edits made to it before it is initialised.

    The layers of a network are the nodes of one `NodeTable`; `ids[v]` and
    `kinds[v]` hold the id and the kind of layer `v`. Layers are compared as
    the source compares them, by id (`NetworkLayer.==`). The parameter loader
    is reduced to its checkpoint name, `updatedCheckpoint` to an entry in the
    `updated` log, and `layer.initialize(temporaryImage:)` to the flag it is
    given. Metal devices, command buffers, kernels and dispatch queues are not
    modelled. */
module Networks {
  import opened Wrappers
  import opened SeqUtil
  import opened Graph
  import opened Dependency
  import opened GraphProtocol
  import opened Images
  import opened Strings
  import Operators

  /** What the network needs to know about a layer's class. */
  datatype Kind = Plain | Dummy | Start(inputName: string)

  /** The id `Start(size:inputName:)` gives its layer. */
  function StartId(inputName: string): (id: string)
    ensures StartsWith(id, "Start_") && id[6..] == inputName
  {
    StartsWithConcat("Start_", inputName);
    "Start_" + inputName
  }

  /** Swift's `first(where:)` and `firstIndex(where:)`: the position of the first element satisfying `p`. */
  function FirstMatch<T>(list: seq<T>, p: T -> bool): (r: Option<nat>)
    ensures r.Some? ==> r.value < |list| && p(list[r.value]) && forall j :: 0 <= j < r.value ==> !p(list[j])
    ensures r.None? ==> forall j :: 0 <= j < |list| ==> !p(list[j])
    decreases |list|
  {
    if list == [] then None
    else if p(list[0]) then Some(0)
    else
      match FirstMatch(list[1..], p)
      case None => None
      case Some(k) => Some(k + 1)
  }

  /** `list.contains(layer)` with layers compared by id. */
  function ContainsId(ids: seq<string>, list: seq<Id>, v: Id): (b: bool)
    requires v < |ids|
    ensures b <==> exists j :: 0 <= j < |list| && list[j] < |ids| && ids[list[j]] == ids[v]
  {
    var id := ids[v];
    FirstMatch<Id>(list, (w: Id) => w < |ids| && ids[w] == id).Some?
  }

  /** `nodes.filter { !($0 is Dummy) }`. */
  function NonDummies(kinds: seq<Kind>, list: seq<Id>): (r: seq<Id>)
    requires Bounded(list, |kinds|)
    ensures |r| <= |list|
    ensures forall v :: v in r <==> v in list && !kinds[v].Dummy?
    decreases |list|
  {
    if list == [] then []
    else
      var init, v := list[..|list| - 1], list[|list| - 1];
      assert list == init + [v] && v in list && forall y :: y in init ==> y in list;
      var r0 := NonDummies(kinds, init);
      if kinds[v].Dummy? then r0 else r0 + [v]
  }

  /** A list without Dummy layers is left as it is. */
  lemma {:induction false} NonDummiesNoDummy(kinds: seq<Kind>, list: seq<Id>)
    requires Bounded(list, |kinds|)
    requires forall v :: v in list ==> !kinds[v].Dummy?
    ensures NonDummies(kinds, list) == list
    decreases |list|
  {
    if list != [] {
      var init, v := list[..|list| - 1], list[|list| - 1];
      assert list == init + [v] && v in list && forall y :: y in init ==> y in list;
      NonDummiesNoDummy(kinds, init);
    }
  }

  /** Filtering a concatenation filters each part: the kept layers stay in their order. */
  lemma {:induction false} NonDummiesAppend(kinds: seq<Kind>, a: seq<Id>, b: seq<Id>)
    requires Bounded(a, |kinds|) && Bounded(b, |kinds|)
    ensures Bounded(a + b, |kinds|)
    ensures NonDummies(kinds, a + b) == NonDummies(kinds, a) + NonDummies(kinds, b)
    decreases |b|
  {
    BoundedConcat(a, b, |kinds|);
    if b == [] {
      assert a + b == a;
    } else {
      var init, v := b[..|b| - 1], b[|b| - 1];
      assert b == init + [v] && v in b;
      assert a + b == (a + init) + [v];
      BoundedPrefix(b, |b| - 1, |kinds|);
      BoundedConcat(a, init, |kinds|);
      NonDummiesAppend(kinds, a, init);
      NonDummiesSnoc(kinds, a + init, v);
      NonDummiesSnoc(kinds, init, v);
    }
  }

  /** One more layer at the end is kept at the end, unless it is a Dummy. */
  lemma NonDummiesSnoc(kinds: seq<Kind>, list: seq<Id>, v: Id)
    requires Bounded(list, |kinds|) && v < |kinds|
    ensures Bounded(list + [v], |kinds|)
    ensures NonDummies(kinds, list + [v]) == NonDummies(kinds, list) + (if kinds[v].Dummy? then [] else [v])
  {
    var l := list + [v];
    assert l[..|l| - 1] == list;
  }

  lemma BoundedConcat(a: seq<Id>, b: seq<Id>, n: nat)
    requires Bounded(a, n) && Bounded(b, n)
    ensures Bounded(a + b, n)
  {
    forall y | y in a + b ensures y < n {
      assert y in a || y in b;
    }
  }

  lemma BoundedPrefix(a: seq<Id>, i: nat, n: nat)
    requires Bounded(a, n) && i <= |a|
    ensures Bounded(a[..i], n)
  {
    forall y | y in a[..i] ensures y < n {
      assert y in a;
    }
  }

  /** One layer of `nodes.forEach { ($0 as? Dummy)?.removeFromGraph() }`, from the incoming and
      outgoing lists `s0` to `s1`: a Dummy layer is removed from the graph (`removeFromGraph`, which
      links its predecessors to its successors) and left without edges; any other layer leaves the
      lists as they are. */
  ghost predicate DummyStep(kinds: seq<Kind>, x: Id, s0: (seq<seq<Id>>, seq<seq<Id>>), s1: (seq<seq<Id>>, seq<seq<Id>>)) {
    x < |kinds| && x < |s0.0| == |s0.1| &&
    if kinds[x].Dummy? then
      RemovedFrom(x, s0.0, s0.1, s1.0, s1.1) && s1.0[x] == [] && s1.1[x] == []
    else
      s1 == s0
  }

  /** `trace[k]` holds the lists before layer `list[k]` is handled, and `trace[k + 1]` those after. */
  ghost predicate DummyTrace(kinds: seq<Kind>, list: seq<Id>, trace: seq<(seq<seq<Id>>, seq<seq<Id>>)>) {
    |trace| == |list| + 1 && forall k :: 0 <= k < |list| ==> DummyStep(kinds, list[k], trace[k], trace[k + 1])
  }

  /** The execution list `initialize` starts from: the list already set, or else the dependency
      order from the start nodes. */
  ghost function ExecutionList(ins: seq<seq<Id>>, outs: seq<seq<Id>>, nodes: seq<Id>, starts: seq<Id>): seq<Id>
    requires nodes == [] ==> Linked(ins, outs) && Bounded(starts, |ins|)
  {
    if nodes == [] then BuildFrom(ins, outs, [], starts, false) else nodes
  }

  /** `permanentOutputNodes` after `initialize`: the last layer of the list is added unless a layer
      with its id is already there. */
  function WithOutput(ids: seq<string>, permanent: seq<Id>, list: seq<Id>): (r: seq<Id>)
    requires Bounded(list, |ids|)
    ensures list == [] ==> r == permanent
    ensures list != [] ==> Last(list) in list && ContainsId(ids, r, Last(list))
    ensures list != [] ==> r == permanent || r == permanent + [Last(list)]
  {
    if list == [] then permanent
    else
      assert Last(list) in list;
      if ContainsId(ids, permanent, Last(list)) then permanent
      else
        var r := permanent + [Last(list)];
        assert r[|permanent|] == Last(list);
        r
  }

  /** Calling `WithOutput` again adds nothing. */
  lemma WithOutputIdempotent(ids: seq<string>, permanent: seq<Id>, list: seq<Id>)
    requires Bounded(list, |ids|)
    ensures WithOutput(ids, WithOutput(ids, permanent, list), list) == WithOutput(ids, permanent, list)
  {
  }

  /** The checkpoint state `change(to:)` works on: the loader's checkpoint and the layers told of it. */
  datatype LoaderState = LoaderState(checkpoint: string, updated: seq<Id>)

  /** `change(to:)`: nothing happens for the current checkpoint; otherwise the checkpoint is set and
      every layer of the list is told, in order. */
  function AfterChange(s: LoaderState, to: string, nodes: seq<Id>): (r: LoaderState)
    ensures r.checkpoint == to
    ensures s.checkpoint == to ==> r == s
    ensures s.checkpoint != to ==>
      |r.updated| == |s.updated| + |nodes| && r.updated[..|s.updated|] == s.updated && r.updated[|s.updated|..] == nodes
  {
    if s.checkpoint == to then s else LoaderState(to, s.updated + nodes)
  }

  /** Changing to the same checkpoint twice notifies the layers once. */
  lemma ChangeIdempotent(s: LoaderState, to: string, nodes: seq<Id>)
    ensures AfterChange(AfterChange(s, to, nodes), to, nodes) == AfterChange(s, to, nodes)
  {
  }

  /** `list.insert(contentsOf: inserted, at: at)` once per entry of `entries`, in order. */
  function PreInserted(list: seq<Id>, entries: seq<seq<Id>>, at: nat): (r: seq<Id>)
    requires at <= |list|
    ensures |r| >= |list| && r[..at] == list[..at] && r[|r| - (|list| - at)..] == list[at..]
    decreases |entries|
  {
    if entries == [] then list
    else
      var l := PreInserted(list, entries[..|entries| - 1], at);
      var r := l[..at] + entries[|entries| - 1] + l[at..];
      assert r[..at] == l[..at] && r[|r| - (|l| - at)..] == l[at..];
      assert l[|l| - (|list| - at)..] == list[at..];
      assert r[|r| - (|list| - at)..] == l[|l| - (|list| - at)..];
      r
  }

  /** Every entry inserted ends up in the list. */
  lemma {:induction false} PreInsertedContains(list: seq<Id>, entries: seq<seq<Id>>, at: nat, k: nat, v: Id)
    requires at <= |list| && k < |entries| && v in entries[k]
    ensures v in PreInserted(list, entries, at)
    decreases |entries|
  {
    var l := PreInserted(list, entries[..|entries| - 1], at);
    var e := entries[|entries| - 1];
    assert PreInserted(list, entries, at) == l[..at] + e + l[at..];
    if k < |entries| - 1 {
      PreInsertedContains(list, entries[..|entries| - 1], at, k, v);
      assert l == l[..at] + l[at..];
    }
  }

  /** Each node of `layers` after the first has its predecessor in the list as an incoming node. */
  ghost predicate Chained(ins: seq<seq<Id>>, layers: seq<Id>) {
    forall i :: 1 <= i < |layers| ==> layers[i] < |ins| && layers[i - 1] in ins[layers[i]]
  }

  /** No incoming entry of `in0` is missing from `in1`. */
  ghost predicate KeptIn(in0: seq<seq<Id>>, in1: seq<seq<Id>>) {
    |in1| == |in0| && forall v: Id, w: Id :: 0 <= v < |in0| && w in in0[v] ==> w in in1[v]
  }

  /** Overwriting entries `a` keeps every other entry. */
  lemma {:induction false} ReplacedTimesKeeps(s: seq<Id>, a: Id, b: Id, k: nat, y: Id)
    requires y in s && y != a
    ensures y in ReplacedTimes(s, a, b, k)
  {
    if k > 0 {
      ReplacedTimesKeeps(s, a, b, k - 1, y);
      var t := ReplacedTimes(s, a, b, k - 1);
      if a in t {
        var i := FirstIndex(t, a);
        var j :| 0 <= j < |t| && t[j] == y;
        assert t[i := b][j] == y;
      }
    }
  }

  /** Only the lists of the nodes of `layers` differ between `in0`/`out0` and `in1`/`out1`. */
  ghost predicate ChainOnly(in0: seq<seq<Id>>, out0: seq<seq<Id>>, in1: seq<seq<Id>>, out1: seq<seq<Id>>, layers: seq<Id>) {
    |out0| == |in0| && |in1| == |in0| && |out1| == |in0| &&
    forall v :: 0 <= v < |in0| && v !in layers ==> in1[v] == in0[v] && out1[v] == out0[v]
  }

  /** `for i in 0..<layers.count-1 { layers[i+1].addIncomingEdge(from: layers[i]) }`. */
  method LinkChain(g: NodeTable, layers: seq<Id>)
    requires g.Valid() && BoundedAt(layers, g.Size())
    modifies g
    ensures g.Valid() && g.Size() == old(g.Size())
    ensures Chained(g.edgeIn, layers)
    ensures KeptIn(old(g.edgeIn), g.edgeIn)
    ensures ChainOnly(old(g.edgeIn), old(g.edgeOut), g.edgeIn, g.edgeOut, layers)
    ensures old(g.WellFormed()) ==> g.WellFormed()
  {
    if layers == [] {
      return;
    }
    var i := 0;
    while i + 1 < |layers|
      invariant 0 <= i < |layers|
      invariant g.Valid() && g.Size() == old(g.Size())
      invariant Chained(g.edgeIn, layers[..i + 1])
      invariant KeptIn(old(g.edgeIn), g.edgeIn)
      invariant ChainOnly(old(g.edgeIn), old(g.edgeOut), g.edgeIn, g.edgeOut, layers)
      invariant old(g.WellFormed()) ==> g.WellFormed()
    {
      ghost var in1 := g.edgeIn;
      assert layers[i] in layers && layers[i + 1] in layers;
      Operators.Connect(g, layers[i + 1], layers[i]);
      ChainStep(in1, g.edgeIn, layers, i);
      i := i + 1;
    }
    assert layers[..i + 1] == layers;
  }

  /** Lists that only gain entries keep every chain. */
  lemma KeptInChained(in1: seq<seq<Id>>, in2: seq<seq<Id>>, chains: seq<seq<Id>>)
    requires KeptIn(in1, in2)
    ensures forall k :: 0 <= k < |chains| && Chained(in1, chains[k]) ==> Chained(in2, chains[k])
  {
  }

  /** One more `addIncomingEdge` extends the chain by one link and keeps every entry. */
  lemma ChainStep(in1: seq<seq<Id>>, in2: seq<seq<Id>>, layers: seq<Id>, i: nat)
    requires i + 1 < |layers| && layers[i + 1] < |in1| && Chained(in1, layers[..i + 1])
    requires in2 == if layers[i] in in1[layers[i + 1]] then in1 else in1[layers[i + 1] := in1[layers[i + 1]] + [layers[i]]]
    ensures Chained(in2, layers[..i + 2]) && KeptIn(in1, in2)
  {
    var p, c := layers[..i + 1], layers[..i + 2];
    assert |in2| == |in1|;
    forall k | 1 <= k < |c| ensures c[k] < |in2| && c[k - 1] in in2[c[k]] {
      if k < |p| {
        assert c[k - 1] == p[k - 1] && c[k] == p[k];
      }
    }
    assert Chained(in2, c);
  }

  class Network {
    /** The graph the layers are nodes of. */
    const table: NodeTable
    var ids: seq<string>
    var kinds: seq<Kind>
    var startNodes: seq<Id>
    var nodes: seq<Id>
    var permanentOutputNodes: seq<Id>
    var maxConcurrentExecutions: int
    var initialized: bool
    /** The parameter loader's checkpoint and the layers told of checkpoint changes. */
    var loader: LoaderState
    /** The `temporaryImage` flag each layer was initialised with. */
    var temporaryImage: map<Id, bool>
    /** The `inputImage` of each start node. */
    var inputImage: map<Id, Image>

    ghost predicate Valid()
      reads this, table
    {
      table.Valid() && |ids| == table.Size() && |kinds| == table.Size() &&
      Bounded(startNodes, |ids|) && Bounded(nodes, |ids|) && Bounded(permanentOutputNodes, |ids|) &&
      NoDup(startNodes) && (forall v :: v in startNodes ==> kinds[v].Start?)
    }

    /** `init(inputSizes:parameterLoader:)`: one lonely start node per input name, in order, and an
        empty execution list. The sizes only set the start nodes' output sizes, which are not kept. */
    constructor (inputNames: seq<string>, checkpoint: string)
      ensures Valid() && fresh(table) && table.WellFormed()
      ensures |startNodes| == |inputNames| && table.Size() == |inputNames|
      ensures forall k :: 0 <= k < |inputNames| ==>
        startNodes[k] == k && ids[k] == StartId(inputNames[k]) && kinds[k] == Start(inputNames[k]) && table.IsLonely(k)
      ensures nodes == [] && permanentOutputNodes == [] && !initialized && maxConcurrentExecutions == 1
      ensures loader == LoaderState(checkpoint, []) && temporaryImage == map[] && inputImage == map[]
    {
      var n := |inputNames|;
      table := new NodeTable(n);
      ids := seq(n, k requires 0 <= k < n => StartId(inputNames[k]));
      kinds := seq(n, k requires 0 <= k < n => Start(inputNames[k]));
      startNodes := seq(n, k requires 0 <= k < n => k);
      nodes := [];
      permanentOutputNodes := [];
      maxConcurrentExecutions := 1;
      initialized := false;
      loader := LoaderState(checkpoint, []);
      temporaryImage := map[];
      inputImage := map[];
    }

    /** A new layer (`NetworkLayer.init`): a fresh lonely node with the given id and kind. */
    method AddLayer(id: string, kind: Kind) returns (v: Id)
      requires Valid()
      modifies this, table
      ensures Valid() && v == old(table.Size()) && table.Size() == v + 1 && table.IsLonely(v)
      ensures ids == old(ids) + [id] && kinds == old(kinds) + [kind]
      ensures forall u :: 0 <= u < v ==> table.edgeIn[u] == old(table.edgeIn[u]) && table.edgeOut[u] == old(table.edgeOut[u])
      ensures startNodes == old(startNodes) && nodes == old(nodes) && permanentOutputNodes == old(permanentOutputNodes)
      ensures initialized == old(initialized) && loader == old(loader)
    {
      v := table.AddNode();
      ids := ids + [id];
      kinds := kinds + [kind];
    }

    /** `node(for:)`: the first layer of the list with id `id`. */
    function NodeFor(id: string): (r: Option<Id>)
      reads this
      ensures r.Some? ==> r.value in nodes && r.value < |ids| && ids[r.value] == id
      ensures r.Some? ==> exists k :: 0 <= k < |nodes| && nodes[k] == r.value && (forall j :: 0 <= j < k ==> !(nodes[j] < |ids| && ids[nodes[j]] == id))
      ensures r.None? ==> forall v :: v in nodes && v < |ids| ==> ids[v] != id
    {
      var names := ids;
      match FirstMatch<Id>(nodes, (v: Id) => v < |names| && names[v] == id)
      case None => None
      case Some(k) => Some(nodes[k])
    }

    /** `startNode(for:)`: the first start node with input name `name`. */
    function StartNodeFor(name: string): (r: Option<Id>)
      reads this`startNodes, this`kinds
      ensures r.Some? ==> r.value in startNodes && r.value < |kinds| && kinds[r.value] == Start(name)
      ensures r.None? ==> forall v :: v in startNodes && v < |kinds| ==> kinds[v] != Start(name)
    {
      var ks := kinds;
      match FirstMatch<Id>(startNodes, (v: Id) => v < |ks| && ks[v] == Start(name))
      case None => None
      case Some(k) => Some(startNodes[k])
    }

    /** `set(layers:)`: the list is replaced; `ok` is the debug assertion that there are as many
        input layers (no incoming node) as start nodes. */
    method Set(layers: seq<Id>) returns (ok: bool)
      requires Valid() && Bounded(layers, |ids|)
      modifies this
      ensures Valid() && nodes == layers
      ensures ok <==> |Roots(table.edgeIn, layers)| == |startNodes|
      ensures ids == old(ids) && kinds == old(kinds) && startNodes == old(startNodes)
      ensures permanentOutputNodes == old(permanentOutputNodes) && initialized == old(initialized)
      ensures loader == old(loader) && temporaryImage == old(temporaryImage) && inputImage == old(inputImage)
    {
      nodes := layers;
      ok := |Roots(table.edgeIn, layers)| == |startNodes|;
    }

    /** The list handling of `initialize()`: an empty list is filled in dependency order from the
        start nodes; its last layer becomes a permanent output unless one with its id already is;
        every Dummy layer is cut out of the graph and dropped from the list; each remaining layer is
        initialised with a temporary image unless a layer with its id is a permanent output. */
    method Initialize()
      requires Valid()
      requires nodes == [] ==> table.OutMirrored()
      modifies this, table
      ensures Valid() && initialized && table.Size() == old(table.Size())
      ensures ids == old(ids) && kinds == old(kinds) && startNodes == old(startNodes) && loader == old(loader)
      ensures old(nodes) == [] ==> PredecessorsFirst(old(table.edgeIn),
        ExecutionList(old(table.edgeIn), old(table.edgeOut), old(nodes), startNodes))
      ensures Bounded(ExecutionList(old(table.edgeIn), old(table.edgeOut), old(nodes), startNodes), |ids|)
      ensures permanentOutputNodes == WithOutput(ids, old(permanentOutputNodes),
        ExecutionList(old(table.edgeIn), old(table.edgeOut), old(nodes), startNodes))
      ensures nodes == NonDummies(kinds, ExecutionList(old(table.edgeIn), old(table.edgeOut), old(nodes), startNodes))
      ensures forall v :: v in nodes ==> v in temporaryImage && temporaryImage[v] == !ContainsId(ids, permanentOutputNodes, v)
    {
      FillList();
      permanentOutputNodes := WithOutput(ids, permanentOutputNodes, nodes);
      ghost var trace := RemoveDummies(nodes);
      nodes := NonDummies(kinds, nodes);
      MarkTemporary();
      initialized := true;
    }

    /** The first step of `initialize()`: an empty list is filled in dependency order from the
        start nodes. */
    method FillList()
      requires Valid()
      requires nodes == [] ==> table.OutMirrored()
      modifies this`nodes
      ensures Valid() && nodes == ExecutionList(table.edgeIn, table.edgeOut, old(nodes), startNodes)
    {
      if nodes == [] {
        var builder := new DependencyListBuilder();
        nodes := builder.ListFrom(table, startNodes);
        BoundedIsBoundedAt(nodes, |ids|);
        forall v | v in nodes ensures v < |ids| {
          var i :| 0 <= i < |nodes| && nodes[i] == v;
        }
      }
    }

    /** `nodes.forEach { ($0 as? Dummy)?.removeFromGraph() }`: the layers are handled in order as
        `DummyStep` states, each on the lists left by the one before; `trace` holds those lists. A
        list without Dummy layers leaves the graph as it is. */
    method RemoveDummies(list: seq<Id>) returns (ghost trace: seq<(seq<seq<Id>>, seq<seq<Id>>)>)
      requires Valid() && Bounded(list, |ids|)
      modifies table
      ensures Valid() && table.Size() == old(table.Size())
      ensures DummyTrace(kinds, list, trace)
      ensures trace[0] == (old(table.edgeIn), old(table.edgeOut)) && trace[|list|] == (table.edgeIn, table.edgeOut)
      ensures (forall v :: v in list ==> !kinds[v].Dummy?) ==>
        table.edgeIn == old(table.edgeIn) && table.edgeOut == old(table.edgeOut)
    {
      ghost var clean := forall v :: v in list ==> !kinds[v].Dummy?;
      trace := [(table.edgeIn, table.edgeOut)];
      var i := 0;
      while i < |list|
        invariant 0 <= i <= |list|
        invariant Valid() && table.Size() == old(table.Size())
        invariant DummyTrace(kinds, list[..i], trace)
        invariant trace[0] == (old(table.edgeIn), old(table.edgeOut)) && trace[i] == (table.edgeIn, table.edgeOut)
        invariant clean ==> table.edgeIn == old(table.edgeIn) && table.edgeOut == old(table.edgeOut)
      {
        assert list[i] in list;
        ghost var s0 := (table.edgeIn, table.edgeOut);
        if kinds[list[i]].Dummy? {
          table.RemoveFromGraph(list[i]);
        }
        assert DummyStep(kinds, list[i], s0, (table.edgeIn, table.edgeOut));
        ghost var trace' := trace + [(table.edgeIn, table.edgeOut)];
        assert DummyTrace(kinds, list[..i + 1], trace') by {
          forall k | 0 <= k < i + 1 ensures DummyStep(kinds, list[..i + 1][k], trace'[k], trace'[k + 1]) {
            if k < i {
              assert list[..i + 1][k] == list[..i][k];
            }
          }
        }
        trace := trace';
        i := i + 1;
      }
      assert list[..i] == list;
    }

    /** `for layer in nodes { layer.initialize(temporaryImage: !permanentOutputNodes.contains(layer)) }`. */
    method MarkTemporary()
      requires Valid()
      modifies this
      ensures Valid()
      ensures forall v :: v in nodes ==> v in temporaryImage && temporaryImage[v] == !ContainsId(ids, permanentOutputNodes, v)
      ensures ids == old(ids) && kinds == old(kinds) && startNodes == old(startNodes) && nodes == old(nodes)
      ensures permanentOutputNodes == old(permanentOutputNodes) && loader == old(loader)
      ensures initialized == old(initialized) && inputImage == old(inputImage)
    {
      var i := 0;
      while i < |nodes|
        invariant 0 <= i <= |nodes|
        invariant Valid()
        invariant forall j :: 0 <= j < i ==>
          nodes[j] < |ids| && nodes[j] in temporaryImage && temporaryImage[nodes[j]] == !ContainsId(ids, permanentOutputNodes, nodes[j])
        invariant ids == old(ids) && kinds == old(kinds) && startNodes == old(startNodes) && nodes == old(nodes)
        invariant permanentOutputNodes == old(permanentOutputNodes) && loader == old(loader)
        invariant initialized == old(initialized) && inputImage == old(inputImage)
      {
        assert nodes[i] in nodes;
        temporaryImage := temporaryImage[nodes[i] := !ContainsId(ids, permanentOutputNodes, nodes[i])];
        i := i + 1;
      }
      forall v | v in nodes ensures v in temporaryImage && temporaryImage[v] == !ContainsId(ids, permanentOutputNodes, v) {
        var j :| 0 <= j < |nodes| && nodes[j] == v;
      }
    }

    /** The guards of `run(inputs:)` and the hand-over of the inputs. A network that is not initialised
        calls back with `nil` (`Success(None)`); a wrong number of inputs is fatal; otherwise each
        start node receives its input, the layers run, and the callback gets the last layer's output
        (`Success(Some(last))`). */
    method Run(inputs: seq<Image>) returns (r: Result<Option<Id>>)
      requires Valid()
      requires initialized && |inputs| == |startNodes| ==> nodes != []
      modifies this
      ensures Valid() && nodes == old(nodes) && startNodes == old(startNodes) && initialized == old(initialized)
      ensures ids == old(ids) && kinds == old(kinds) && permanentOutputNodes == old(permanentOutputNodes) && loader == old(loader)
      ensures !initialized ==> r == Success(None) && inputImage == old(inputImage)
      ensures initialized && |inputs| != |startNodes| ==> r.Failure? && inputImage == old(inputImage)
      ensures initialized && |inputs| == |startNodes| ==> r == Success(Some(Last(nodes)))
      ensures initialized && |inputs| == |startNodes| ==>
        forall k :: 0 <= k < |inputs| ==> startNodes[k] in inputImage && inputImage[startNodes[k]] == inputs[k]
      ensures initialized && |inputs| == |startNodes| ==>
        forall v :: v !in startNodes ==> (v in inputImage <==> v in old(inputImage)) && (v in inputImage ==> inputImage[v] == old(inputImage)[v])
    {
      if !initialized {
        return Success(None);
      }
      if |inputs| != |startNodes| {
        return Failure("You must pass as many inputs as input sizes");
      }
      var i := 0;
      while i < |inputs|
        invariant 0 <= i <= |inputs|
        invariant Valid() && nodes == old(nodes) && startNodes == old(startNodes) && initialized == old(initialized)
        invariant ids == old(ids) && kinds == old(kinds) && permanentOutputNodes == old(permanentOutputNodes) && loader == old(loader)
        invariant forall k :: 0 <= k < i ==> startNodes[k] in inputImage && inputImage[startNodes[k]] == inputs[k]
        invariant forall v :: v !in startNodes[..i] ==>
          (v in inputImage <==> v in old(inputImage)) && (v in inputImage ==> inputImage[v] == old(inputImage)[v])
      {
        assert startNodes[..i + 1] == startNodes[..i] + [startNodes[i]];
        inputImage := inputImage[startNodes[i] := inputs[i]];
        i := i + 1;
      }
      assert startNodes[..i] == startNodes;
      r := Success(Some(nodes[|nodes| - 1]));
    }

    /** `change(to:)`. */
    method Change(to: string)
      requires Valid()
      modifies this
      ensures Valid() && loader == AfterChange(old(loader), to, nodes)
      ensures nodes == old(nodes) && ids == old(ids) && kinds == old(kinds) && startNodes == old(startNodes)
      ensures permanentOutputNodes == old(permanentOutputNodes) && initialized == old(initialized)
    {
      if to == loader.checkpoint {
        return;
      }
      loader := loader.(checkpoint := to);
      var i := 0;
      while i < |nodes|
        invariant 0 <= i <= |nodes|
        invariant Valid() && nodes == old(nodes) && ids == old(ids) && kinds == old(kinds) && startNodes == old(startNodes)
        invariant permanentOutputNodes == old(permanentOutputNodes) && initialized == old(initialized)
        invariant loader == LoaderState(to, old(loader.updated) + nodes[..i])
      {
        assert nodes[..i + 1] == nodes[..i] + [nodes[i]];
        loader := loader.(updated := loader.updated + [nodes[i]]);
        i := i + 1;
      }
      assert nodes[..i] == nodes;
    }

    /** The guard shared by both `addPreProcessing` variants: not initialised, and the first start
        node (compared by id) is in the list. */
    predicate PreProcessingAllowed()
      reads this
    {
      !initialized && startNodes != [] && startNodes[0] < |ids| && ContainsId(ids, nodes, startNodes[0])
    }

    /** `addPreProcessing(layers:)`: the layers are chained, inserted after the first start node in
        the graph and placed right after the first layer of the list. */
    method AddPreProcessing(layers: seq<Id>) returns (r: Result<()>)
      requires Valid() && Bounded(layers, |ids|)
      requires startNodes != [] ==> startNodes[0] !in layers
      modifies this, table
      ensures Valid() && table.Size() == old(table.Size())
      ensures ids == old(ids) && kinds == old(kinds) && startNodes == old(startNodes) && initialized == old(initialized)
      ensures permanentOutputNodes == old(permanentOutputNodes) && loader == old(loader)
      ensures layers == [] ==> r.Success? && nodes == old(nodes) && table.edgeIn == old(table.edgeIn) && table.edgeOut == old(table.edgeOut)
      ensures layers != [] && !old(PreProcessingAllowed()) ==>
        r.Failure? && nodes == old(nodes) && table.edgeIn == old(table.edgeIn) && table.edgeOut == old(table.edgeOut)
      ensures layers != [] && old(PreProcessingAllowed()) ==>
        r.Success? && old(nodes) != [] && nodes == old(nodes)[..1] + layers + old(nodes)[1..] &&
        layers[0] < table.Size() && startNodes[0] in table.edgeIn[layers[0]] && Chained(table.edgeIn, layers) &&
        InsertedAfter(old(table.edgeIn), old(table.edgeOut), table.edgeIn, table.edgeOut, startNodes[0], layers) &&
        (Repointable(old(table.edgeIn), old(table.edgeOut), startNodes[0]) ==>
           Repointed(table.edgeIn, old(table.edgeOut[startNodes[0]]), startNodes[0], layers)) &&
        (old(table.WellFormed()) ==> table.edgeOut[startNodes[0]] == [layers[0]])
    {
      if layers == [] {
        return Success(());
      }
      if !PreProcessingAllowed() {
        return Failure("Must not call this function after initializing");
      }
      var start := startNodes[0];
      assert start in startNodes;
      BoundedIsBoundedAt(layers, table.Size());
      InsertChain(table, start, layers, []);
      BoundedSplice(nodes, layers, 1, |ids|);
      nodes := nodes[..1] + layers + nodes[1..];
      r := Success(());
    }

    /** `addPreProcessing(layers:)` for several inputs: for each `(inputName, preprocessing)` pair
        in turn the layers are chained, inserted after the start node for that input, if any, and
        placed in the list at position `startNodes.count`. Every chain keeps its links; the last
        one inserted follows its start node (an earlier one for the same start node has had
        that link replaced by the later chain). */
    method AddPreProcessingByInput(layers: seq<(string, seq<Id>)>) returns (r: Result<()>, ghost trace: seq<Lists>)
      requires Valid() && forall k :: 0 <= k < |layers| ==> Bounded(layers[k].1, |ids|)
      requires PreProcessingAllowed() && layers != [] ==>
        |startNodes| <= |nodes| &&
        forall k :: 0 <= k < |layers| ==> layers[k].1 != [] && forall v :: v in startNodes ==> v !in layers[k].1
      modifies this, table
      ensures Valid() && table.Size() == old(table.Size())
      ensures ids == old(ids) && kinds == old(kinds) && startNodes == old(startNodes) && initialized == old(initialized)
      ensures permanentOutputNodes == old(permanentOutputNodes) && loader == old(loader)
      ensures layers == [] || !old(PreProcessingAllowed()) ==>
        nodes == old(nodes) && table.edgeIn == old(table.edgeIn) && table.edgeOut == old(table.edgeOut)
      ensures layers == [] ==> r.Success?
      ensures layers != [] && !old(PreProcessingAllowed()) ==> r.Failure?
      ensures layers != [] && old(PreProcessingAllowed()) ==>
        r.Success? && |startNodes| <= |old(nodes)| && nodes == PreInserted(old(nodes), Values(layers), |startNodes|) &&
        (forall k :: 0 <= k < |layers| ==> Chained(table.edgeIn, layers[k].1)) &&
        (var e := layers[|layers| - 1];
         e.1[0] < table.Size() && (StartNodeFor(e.0).Some? ==> StartNodeFor(e.0).value in table.edgeIn[e.1[0]])) &&
        PreTrace(layers, |layers|, trace) && trace[0] == Lists(old(table.edgeIn), old(table.edgeOut)) &&
        trace[|layers|] == Lists(table.edgeIn, table.edgeOut)
    {
      trace := [Lists(table.edgeIn, table.edgeOut)];
      if layers == [] {
        return Success(()), trace;
      }
      if !PreProcessingAllowed() {
        return Failure("Must not call this function after initializing"), trace;
      }
      trace := PreProcessEntries(layers);
      var n := |layers| - 1;
      assert layers[n].1[0] in layers[n].1;
      if StartNodeFor(layers[n].0).Some? {
        PreProcessedFollows(trace[n], trace[n + 1], StartNodeFor(layers[n].0).value, layers[n].1);
      }
      r := Success(());
    }

    /** The trace of `addPreProcessing(layers:)` for several inputs over its first `i` entries:
        entry `k` takes the lists from `trace[k]` to `trace[k + 1]` as `PreProcessed` says. */
    ghost predicate PreTrace(layers: seq<(string, seq<Id>)>, i: nat, trace: seq<Lists>)
      reads this`startNodes, this`kinds
    {
      i <= |layers| && |trace| == i + 1 &&
      forall k :: 0 <= k < i ==> layers[k].1 != [] && PreProcessed(trace[k], trace[k + 1], StartNodeFor(layers[k].0), layers[k].1)
    }

    /** The loop of `addPreProcessing(layers:)` for several inputs, one entry at a time. */
    method PreProcessEntries(layers: seq<(string, seq<Id>)>) returns (ghost trace: seq<Lists>)
      requires Valid() && layers != [] && |startNodes| <= |nodes|
      requires forall k :: 0 <= k < |layers| ==>
        Bounded(layers[k].1, |ids|) && layers[k].1 != [] && forall v :: v in startNodes ==> v !in layers[k].1
      modifies this`nodes, table
      ensures Valid() && table.Size() == old(table.Size())
      ensures nodes == PreInserted(old(nodes), Values(layers), |startNodes|)
      ensures forall k :: 0 <= k < |layers| ==> Chained(table.edgeIn, layers[k].1)
      ensures PreTrace(layers, |layers|, trace)
      ensures trace[0] == Lists(old(table.edgeIn), old(table.edgeOut)) && trace[|layers|] == Lists(table.edgeIn, table.edgeOut)
    {
      trace := [Lists(table.edgeIn, table.edgeOut)];
      var i := 0;
      while i < |layers|
        invariant 0 <= i <= |layers|
        invariant Valid() && table.Size() == old(table.Size())
        invariant |startNodes| <= |nodes| && nodes == PreInserted(old(nodes), Values(layers[..i]), |startNodes|)
        invariant forall k :: 0 <= k < i ==> Chained(table.edgeIn, layers[k].1)
        invariant PreTrace(layers, i, trace)
        invariant trace[0] == Lists(old(table.edgeIn), old(table.edgeOut)) && trace[i] == Lists(table.edgeIn, table.edgeOut)
      {
        PreProcessingStep(layers, i, old(nodes));
        PreTraceSnoc(layers, i, trace, Lists(table.edgeIn, table.edgeOut));
        trace := trace + [Lists(table.edgeIn, table.edgeOut)];
        i := i + 1;
      }
      assert layers[..i] == layers;
    }

    /** Entry `i` of `addPreProcessing(layers:)` for several inputs, after the entries before it
        were inserted into `nodes0`. */
    method PreProcessingStep(layers: seq<(string, seq<Id>)>, i: nat, ghost nodes0: seq<Id>)
      requires Valid() && i < |layers| && Bounded(layers[i].1, |ids|) && layers[i].1 != []
      requires forall k, v :: 0 <= k <= i && v in startNodes ==> v !in layers[k].1
      requires |startNodes| <= |nodes0| && |startNodes| <= |nodes| && nodes == PreInserted(nodes0, Values(layers[..i]), |startNodes|)
      requires forall k :: 0 <= k < i ==> Chained(table.edgeIn, layers[k].1)
      modifies this`nodes, table
      ensures Valid() && table.Size() == old(table.Size())
      ensures |startNodes| <= |nodes| && nodes == PreInserted(nodes0, Values(layers[..i + 1]), |startNodes|)
      ensures forall k :: 0 <= k <= i ==> Chained(table.edgeIn, layers[k].1)
      ensures PreProcessed(Lists(old(table.edgeIn), old(table.edgeOut)), Lists(table.edgeIn, table.edgeOut),
                           StartNodeFor(layers[i].0), layers[i].1)
    {
      ghost var others := Values(layers[..i]);
      assert forall k :: 0 <= k < i ==> others[k] == layers[k].1;
      InsertPreProcessing(layers[i].0, layers[i].1, others);
      assert Values(layers[..i + 1]) == Values(layers[..i]) + [layers[i].1];
    }

    /** One more entry extends the trace. */
    lemma PreTraceSnoc(layers: seq<(string, seq<Id>)>, i: nat, trace: seq<Lists>, s: Lists)
      requires PreTrace(layers, i, trace) && i < |layers| && layers[i].1 != []
      requires PreProcessed(trace[i], s, StartNodeFor(layers[i].0), layers[i].1)
      ensures PreTrace(layers, i + 1, trace + [s])
    {
      var t := trace + [s];
      forall k | 0 <= k < i + 1
        ensures layers[k].1 != [] && PreProcessed(t[k], t[k + 1], StartNodeFor(layers[k].0), layers[k].1)
      {
        assert t[k] == trace[k];
      }
    }

    /** One entry of `addPreProcessing(layers:)` for several inputs: the links of the chains
        `others` inserted before, which hold no start node, are kept. */
    method InsertPreProcessing(name: string, pre: seq<Id>, ghost others: seq<seq<Id>>)
      requires Valid() && Bounded(pre, |ids|) && pre != [] && |startNodes| <= |nodes|
      requires forall v :: v in startNodes ==> v !in pre
      requires forall k, v :: 0 <= k < |others| && v in startNodes ==> v !in others[k]
      modifies this`nodes, table
      ensures Valid() && table.Size() == old(table.Size())
      ensures nodes == old(nodes)[..|startNodes|] + pre + old(nodes)[|startNodes|..]
      ensures pre[0] < table.Size() && Chained(table.edgeIn, pre)
      ensures StartNodeFor(name).Some? ==> StartNodeFor(name).value in table.edgeIn[pre[0]]
      ensures PreProcessed(Lists(old(table.edgeIn), old(table.edgeOut)), Lists(table.edgeIn, table.edgeOut), StartNodeFor(name), pre)
      ensures forall k :: 0 <= k < |others| && Chained(old(table.edgeIn), others[k]) ==> Chained(table.edgeIn, others[k])
    {
      BoundedIsBoundedAt(pre, table.Size());
      var start := StartNodeFor(name);
      if start.Some? {
        assert start.value in startNodes;
        InsertChain(table, start.value, pre, others);
      } else {
        LinkChain(table, pre);
        KeptInChained(old(table.edgeIn), table.edgeIn, others);
      }
      BoundedSplice(nodes, pre, |startNodes|, |ids|);
      nodes := nodes[..|startNodes|] + pre + nodes[|startNodes|..];
    }

    /** `addPostProcessing(layers:)`: the layers are chained, linked after the last layer of the
        list if there is one, and appended to the list. */
    method AddPostProcessing(layers: seq<Id>) returns (r: Result<()>)
      requires Valid() && Bounded(layers, |ids|)
      modifies this, table
      ensures Valid() && table.Size() == old(table.Size())
      ensures ids == old(ids) && kinds == old(kinds) && startNodes == old(startNodes) && initialized == old(initialized)
      ensures permanentOutputNodes == old(permanentOutputNodes) && loader == old(loader)
      ensures layers == [] ==> r.Success? && nodes == old(nodes) && table.edgeIn == old(table.edgeIn)
      ensures layers != [] && initialized ==> r.Failure? && nodes == old(nodes) && table.edgeIn == old(table.edgeIn)
      ensures layers != [] && !initialized ==>
        r.Success? && nodes == old(nodes) + layers && Chained(table.edgeIn, layers) &&
        layers[0] < table.Size() && (old(nodes) != [] ==> Last(old(nodes)) in table.edgeIn[layers[0]]) &&
        KeptIn(old(table.edgeIn), table.edgeIn)
      ensures old(table.WellFormed()) ==> table.WellFormed()
    {
      if layers == [] {
        return Success(());
      }
      if initialized {
        return Failure("Must not call this function after initializing");
      }
      BoundedIsBoundedAt(layers, table.Size());
      if nodes != [] {
        assert Last(nodes) in nodes;
        AppendChain(table, Some(Last(nodes)), layers);
      } else {
        AppendChain(table, None, layers);
      }
      nodes := nodes + layers;
      r := Success(());
    }
  }

  /** The layers are chained, then the first is linked after `output`, if there is one. */
  method AppendChain(g: NodeTable, output: Option<Id>, layers: seq<Id>)
    requires g.Valid() && BoundedAt(layers, g.Size()) && layers != []
    requires output.Some? ==> g.Has(output.value)
    modifies g
    ensures g.Valid() && g.Size() == old(g.Size())
    ensures layers[0] < g.Size() && Chained(g.edgeIn, layers) && KeptIn(old(g.edgeIn), g.edgeIn)
    ensures output.Some? ==> output.value in g.edgeIn[layers[0]]
    ensures old(g.WellFormed()) ==> g.WellFormed()
  {
    LinkChain(g, layers);
    if output.Some? {
      ghost var in1 := g.edgeIn;
      Operators.Connect(g, layers[0], output.value);
      assert KeptIn(in1, g.edgeIn);
    }
  }

  /** A snapshot of a table's incoming and outgoing lists. */
  datatype Lists = Lists(ins: seq<seq<Id>>, outs: seq<seq<Id>>)

  /** One entry of `addPreProcessing(layers:)` for several inputs, from lists `s0` to `s1`: the
      chain `pre` is linked and, when the input has a start node `x`, inserted after it with
      `insert(outgoing:)`; without a start node only the chain's own lists change. */
  ghost predicate PreProcessed(s0: Lists, s1: Lists, start: Option<Id>, pre: seq<Id>)
    requires pre != []
  {
    Chained(s1.ins, pre) &&
    match start
    case Some(x) =>
      x !in pre && InsertedAfter(s0.ins, s0.outs, s1.ins, s1.outs, x, pre) && pre[0] < |s1.ins| && x in s1.ins[pre[0]] &&
      (Repointable(s0.ins, s0.outs, x) ==> Repointed(s1.ins, s0.outs[x], x, pre))
    case None => ChainOnly(s0.ins, s0.outs, s1.ins, s1.outs, pre)
  }

  /** After an entry with a start node, the start node feeds the entry's first layer. */
  lemma PreProcessedFollows(s0: Lists, s1: Lists, x: Id, pre: seq<Id>)
    requires pre != [] && PreProcessed(s0, s1, Some(x), pre)
    ensures pre[0] < |s1.ins| && x in s1.ins[pre[0]]
  {
  }

  /** The preprocessing lists of a dictionary's entries, in order. */
  function Values(entries: seq<(string, seq<Id>)>): (r: seq<seq<Id>>)
    ensures |r| == |entries| && forall k :: 0 <= k < |r| ==> r[k] == entries[k].1
  {
    seq(|entries|, k requires 0 <= k < |entries| => entries[k].1)
  }

  /** What `x.insert(outgoing: layers)` does outside the chain `layers`, from lists `in0`/`out0`
      to `in1`/`out1`: a node's incoming `x` is overwritten by the chain's last node once per
      edge from `x` (so a node `x` did not feed keeps its list), and no outgoing list changes but
      `x`'s, which holds at most the chain's first node. */
  ghost predicate InsertedAfter(in0: seq<seq<Id>>, out0: seq<seq<Id>>, in1: seq<seq<Id>>, out1: seq<seq<Id>>,
                                x: Id, layers: seq<Id>)
    requires layers != []
  {
    |out0| == |in0| && |in1| == |in0| && |out1| == |in0| && x < |in0| &&
    (forall v :: 0 <= v < |in0| && v !in layers ==>
       in1[v] == ReplacedTimes(in0[v], x, Last(layers), multiset(out0[x])[v])) &&
    (forall w :: 0 <= w < |in0| && w != x && w !in layers ==> out1[w] == out0[w]) &&
    (out1[x] == [] || out1[x] == [layers[0]])
  }

  /** `x`'s outgoing edges are mirrored by incoming ones and neither side lists a node twice. */
  ghost predicate Repointable(ins: seq<seq<Id>>, outs: seq<seq<Id>>, x: Id) {
    x < |outs| && NoDup(outs[x]) &&
    forall o :: 0 <= o < |ins| ==> NoDup(ins[o]) && (x in ins[o] <==> o in outs[x])
  }

  /** Every former successor of `x` outside the chain now follows the chain's last node and no
      longer `x`. */
  ghost predicate Repointed(in1: seq<seq<Id>>, formerOuts: seq<Id>, x: Id, layers: seq<Id>)
    requires layers != []
  {
    forall o :: 0 <= o < |in1| && o in formerOuts && o !in layers ==> Last(layers) in in1[o] && x !in in1[o]
  }

  /** On lists where `x`'s edges are mirrored and nothing is listed twice, `insert(outgoing:)`
      re-points exactly `x`'s former successors. */
  lemma InsertedRepoints(in0: seq<seq<Id>>, out0: seq<seq<Id>>, in1: seq<seq<Id>>, out1: seq<seq<Id>>,
                         x: Id, layers: seq<Id>)
    requires layers != [] && x !in layers && InsertedAfter(in0, out0, in1, out1, x, layers)
    requires Repointable(in0, out0, x)
    ensures Repointed(in1, out0[x], x, layers)
  {
    forall o | 0 <= o < |in1| && o in out0[x] && o !in layers ensures Last(layers) in in1[o] && x !in in1[o] {
      NoDupCount(out0[x], o);
      assert multiset(out0[x])[o] == 1;
      assert ReplacedTimes(in0[o], x, Last(layers), 1) == Replaced(ReplacedTimes(in0[o], x, Last(layers), 0), x, Last(layers));
      ReplacedOnce(in0[o], x, Last(layers));
    }
  }

  /** The layers are chained, then `x.insert(outgoing: layers)` places them after `x`: `x`'s
      former successors outside the chain follow its last node, and `x` feeds only its first. */
  method InsertChain(g: NodeTable, x: Id, layers: seq<Id>, ghost others: seq<seq<Id>>)
    requires g.Valid() && g.Has(x) && BoundedAt(layers, g.Size()) && x !in layers && layers != []
    requires forall k :: 0 <= k < |others| ==> x !in others[k]
    modifies g
    ensures g.Valid() && g.Size() == old(g.Size())
    ensures layers[0] < g.Size() && x in g.edgeIn[layers[0]] && Chained(g.edgeIn, layers)
    ensures InsertedAfter(old(g.edgeIn), old(g.edgeOut), g.edgeIn, g.edgeOut, x, layers)
    ensures Repointable(old(g.edgeIn), old(g.edgeOut), x) ==> Repointed(g.edgeIn, old(g.edgeOut[x]), x, layers)
    ensures old(g.WellFormed()) ==> g.edgeOut[x] == [layers[0]]
    ensures forall k :: 0 <= k < |others| && Chained(old(g.edgeIn), others[k]) ==> Chained(g.edgeIn, others[k])
  {
    LinkChain(g, layers);
    ghost var in1, out1 := g.edgeIn, g.edgeOut;
    ghost var wf := g.WellFormed();
    g.Insert(x, layers);
    InsertKeepsChain(in1, out1, g.edgeIn, x, layers);
    forall k | 0 <= k < |others| && Chained(old(g.edgeIn), others[k]) ensures Chained(g.edgeIn, others[k]) {
      InsertKeepsChained(in1, out1, g.edgeIn, x, layers, others[k]);
    }
    assert out1[x] == old(g.edgeOut[x]);
    if Repointable(old(g.edgeIn), old(g.edgeOut), x) {
      InsertedRepoints(old(g.edgeIn), old(g.edgeOut), g.edgeIn, g.edgeOut, x, layers);
    }
    if wf {
      InsertedAlone(in1, out1, x, layers);
    }
  }

  /** On a well-formed graph the overwriting leaves no `x` in the first chain node's list, so
      `insert(outgoing:)` gives `x` the chain's first node as its only successor. */
  lemma InsertedAlone(in1: seq<seq<Id>>, out1: seq<seq<Id>>, x: Id, layers: seq<Id>)
    requires layers != [] && x !in layers && x < |in1| && layers[0] < |in1| && |out1| == |in1|
    requires NoDup(out1[x]) && NoDup(in1[layers[0]]) && (x in in1[layers[0]] <==> layers[0] in out1[x])
    ensures x !in ReplacedTimes(in1[layers[0]], x, Last(layers), multiset(out1[x])[layers[0]])
  {
    var v := layers[0];
    assert Last(layers) in layers;
    if x in in1[v] {
      NoDupCount(out1[x], v);
      assert multiset(out1[x])[v] == 1;
      ReplacedOnce(in1[v], x, Last(layers));
    } else {
      ReplacedTimesAbsent(in1[v], x, Last(layers), multiset(out1[x])[v]);
    }
  }

  /** `x.insert(outgoing: layers)` keeps the links of any other chain that does not hold `x`. */
  lemma InsertKeepsChained(in1: seq<seq<Id>>, out1: seq<seq<Id>>, in2: seq<seq<Id>>, x: Id, layers: seq<Id>, c: seq<Id>)
    requires Chained(in1, c) && x !in c && layers != [] && |in2| == |in1| && |out1| == |in1|
    requires x < |in1| && layers[0] < |in1|
    requires forall v :: 0 <= v < |in1| && v != layers[0] ==>
      in2[v] == ReplacedTimes(in1[v], x, Last(layers), multiset(out1[x])[v])
    requires var r := ReplacedTimes(in1[layers[0]], x, Last(layers), multiset(out1[x])[layers[0]]);
      in2[layers[0]] == (if x in r then r else r + [x])
    ensures Chained(in2, c)
  {
    forall i | 1 <= i < |c| ensures c[i] < |in2| && c[i - 1] in in2[c[i]] {
      var v := c[i];
      assert c[i - 1] in c;
      ReplacedTimesKeeps(in1[v], x, Last(layers), multiset(out1[x])[v], c[i - 1]);
    }
  }

  /** Splicing a bounded list into another keeps it bounded. */
  lemma BoundedSplice(a: seq<Id>, b: seq<Id>, i: nat, n: nat)
    requires Bounded(a, n) && Bounded(b, n) && i <= |a|
    ensures Bounded(a[..i] + b + a[i..], n)
  {
    forall y | y in a[..i] + b + a[i..] ensures y < n {
      if y in a[..i] || y in a[i..] {
        assert y in a;
      }
    }
  }

  /** `x.insert(outgoing: layers)` keeps the links of an already chained `layers` that does not hold `x`. */
  lemma InsertKeepsChain(in1: seq<seq<Id>>, out1: seq<seq<Id>>, in2: seq<seq<Id>>, x: Id, layers: seq<Id>)
    requires Chained(in1, layers) && x !in layers && layers != [] && |in2| == |in1| && |out1| == |in1|
    requires x < |in1| && layers[0] < |in1|
    requires forall v :: 0 <= v < |in1| && v != layers[0] ==>
      in2[v] == ReplacedTimes(in1[v], x, Last(layers), multiset(out1[x])[v])
    requires var r := ReplacedTimes(in1[layers[0]], x, Last(layers), multiset(out1[x])[layers[0]]);
      in2[layers[0]] == (if x in r then r else r + [x])
    ensures Chained(in2, layers) && x in in2[layers[0]]
  {
    forall i | 1 <= i < |layers| ensures layers[i] < |in2| && layers[i - 1] in in2[layers[i]] {
      var v := layers[i];
      assert layers[i - 1] in layers && v in layers;
      ReplacedTimesKeeps(in1[v], x, Last(layers), multiset(out1[x])[v], layers[i - 1]);
    }
  }
}
