/** A graph imported from TensorFlow, Sources/Adapters/Tensorflow/TFGraph.swift
    and Sources/Graph/Graph.swift.

    Node `v` of a `TFGraph` is index `v` of its `NodeTable`, and `defs[v]` is
    its (mutable) `NodeDef`; `nodes` is the graph's node list. Nodes are the
    same node exactly when their indices are equal: the source compares
    `NodeDef`s by name, and TensorFlow gives every node of a graph its own
    name. */
module TFGraphs {
  import opened Wrappers
  import opened SeqUtil
  import opened Graph
  import opened Dependency
  import opened GraphProtocol
  import opened TFProto

  /** The name map of `initNodes`: every name to the index of the last
      definition with that name. */
  function NameMap(defs: seq<NodeDef>): (m: map<string, Id>)
    ensures forall name :: name in m ==> m[name] < |defs| && defs[m[name]].name == name
    decreases |defs|
  {
    if defs == [] then map[]
    else NameMap(defs[..|defs| - 1])[defs[|defs| - 1].name := |defs| - 1]
  }

  /** Every name of a definition is in the map, and it maps to the last
      definition carrying it: when names repeat, the later node wins. */
  lemma {:induction false} NameMapLast(defs: seq<NodeDef>, k: nat)
    requires k < |defs|
    ensures defs[k].name in NameMap(defs)
    ensures k <= NameMap(defs)[defs[k].name]
    ensures forall j :: NameMap(defs)[defs[k].name] < j < |defs| ==> defs[j].name != defs[k].name
    decreases |defs|
  {
    var front := defs[..|defs| - 1];
    if k < |defs| - 1 && defs[|defs| - 1].name != defs[k].name {
      NameMapLast(front, k);
      assert front[k] == defs[k];
      forall j | NameMap(defs)[defs[k].name] < j < |defs| ensures defs[j].name != defs[k].name {
        if j < |defs| - 1 {
          assert front[j] == defs[j];
        }
      }
    }
  }

  /** The incoming list `initNodes` gives a node with input names `names`:
      each name that names a node, in order, once; unknown names are
      skipped. */
  function Resolve(byName: map<string, Id>, names: seq<string>): (r: seq<Id>)
    decreases |names|
  {
    if names == [] then []
    else
      var r := Resolve(byName, names[..|names| - 1]);
      var last := names[|names| - 1];
      if last in byName && byName[last] !in r then r + [byName[last]] else r
  }

  /** A resolved list holds exactly the nodes named by known inputs, each
      once. */
  lemma {:induction false} ResolveMembers(byName: map<string, Id>, names: seq<string>)
    ensures NoDup(Resolve(byName, names))
    ensures forall u :: u in Resolve(byName, names) <==> exists j :: 0 <= j < |names| && names[j] in byName && byName[names[j]] == u
    decreases |names|
  {
    if names != [] {
      var front := names[..|names| - 1];
      ResolveMembers(byName, front);
      var r := Resolve(byName, front);
      var last := names[|names| - 1];
      if last in byName && byName[last] !in r {
        NoDupAppend(r, byName[last]);
      }
      forall u ensures u in Resolve(byName, names) <==> exists j :: 0 <= j < |names| && names[j] in byName && byName[names[j]] == u {
        if u in Resolve(byName, names) {
          if u in r {
            var j :| 0 <= j < |front| && front[j] in byName && byName[front[j]] == u;
            assert names[j] == front[j];
          } else {
            assert names[|names| - 1] == last;
          }
        } else {
          forall j | 0 <= j < |names| && names[j] in byName ensures byName[names[j]] != u {
            if j < |names| - 1 {
              assert front[j] == names[j];
            }
          }
        }
      }
    }
  }

  /** Resolving a prefix one name longer. */
  lemma ResolveStep(byName: map<string, Id>, names: seq<string>, j: nat)
    requires j < |names|
    ensures Resolve(byName, names[..j + 1]) ==
      var r := Resolve(byName, names[..j]);
      if names[j] in byName && byName[names[j]] !in r then r + [byName[names[j]]] else r
  {
    assert names[..j + 1][..j] == names[..j];
  }

  /** `graphDef.node.map { TFNode(def: $0) }`: one node per definition, in
      definition order. */
  function AllNodes(n: nat): (r: seq<Id>)
    ensures |r| == n && forall k :: 0 <= k < n ==> r[k] == k
  {
    seq(n, k requires 0 <= k => k)
  }

  /** The inner loop of `initNodes`: node `v` gains, in order, an incoming
      edge from every node its input names name. */
  method LinkInputs(t: NodeTable, v: Id, inputs: seq<string>, byName: map<string, Id>)
    requires t.Valid() && t.WellFormed() && t.Has(v) && t.edgeIn[v] == []
    requires forall name :: name in byName ==> byName[name] < t.Size()
    modifies t
    ensures t.Valid() && t.WellFormed() && t.Size() == old(t.Size())
    ensures t.edgeIn == old(t.edgeIn)[v := Resolve(byName, inputs)]
  {
    for j := 0 to |inputs|
      invariant t.Valid() && t.Size() == old(t.Size()) && t.WellFormed()
      invariant t.edgeIn == old(t.edgeIn)[v := Resolve(byName, inputs[..j])]
    {
      ResolveStep(byName, inputs, j);
      if inputs[j] in byName {
        label Before:
        t.AddIncomingEdge(v, byName[inputs[j]]);
        assert old@Before(t.MirroredAway(t.Size()));
      }
    }
    assert inputs[..|inputs|] == inputs;
  }

  /** The table `initNodes` builds: one lonely node per definition, then
      every node linked to the nodes its inputs name. */
  method BuildTable(ds: seq<NodeDef>) returns (t: NodeTable)
    ensures fresh(t) && t.Valid() && t.WellFormed() && t.Size() == |ds|
    ensures forall v :: 0 <= v < |ds| ==> t.edgeIn[v] == Resolve(NameMap(ds), ds[v].input)
  {
    var n := |ds|;
    var byName: map<string, Id> := map[];
    for k := 0 to n
      invariant byName == NameMap(ds[..k])
    {
      assert ds[..k + 1][..k] == ds[..k];
      byName := byName[ds[k].name := k];
    }
    assert ds[..n] == ds;
    t := new NodeTable(n);
    forall w | 0 <= w < n ensures t.edgeIn[w] == [] {
      assert t.IsLonely(w);
    }
    for v := 0 to n
      invariant t.Valid() && t.Size() == n && t.WellFormed()
      invariant forall w :: 0 <= w < v ==> t.edgeIn[w] == Resolve(byName, ds[w].input)
      invariant forall w :: v <= w < n ==> t.edgeIn[w] == []
    {
      LinkInputs(t, v, ds[v].input, byName);
    }
  }

  class TFGraph {
    var table: NodeTable
    var defs: seq<NodeDef>
    var nodes: seq<Id>

    ghost predicate Valid()
      reads this, table
    {
      table.Valid() && |defs| == table.Size() && Bounded(nodes, |defs|)
    }

    /** `init(graphDef:)`: stores the definitions and runs `initNodes`. */
    constructor(graphDef: seq<NodeDef>)
      ensures Valid() && defs == graphDef && table.WellFormed()
      ensures forall v :: 0 <= v < |defs| ==> table.edgeIn[v] == Resolve(NameMap(defs), defs[v].input)
      ensures PredecessorsFirst(table.edgeIn, nodes) && OffCycles(table.edgeOut, nodes)
    {
      defs := graphDef;
      table := new NodeTable(0);
      nodes := [];
      new;
      var _ := InitNodes();
    }

    /** `initNodes()`: fresh nodes, one per definition; every input name that
        names a node becomes an incoming edge (the last node with that name),
        unknown names are skipped; then the list is sorted by dependencies.
        `countsAgree` is the sort's debug assertion: as many sorted nodes as
        definitions (which a node sorted twice can mask, so it is no cycle
        check). */
    method InitNodes() returns (countsAgree: bool)
      modifies this
      ensures Valid() && fresh(table) && defs == old(defs) && table.WellFormed()
      ensures forall v :: 0 <= v < |defs| ==> table.edgeIn[v] == Resolve(NameMap(defs), defs[v].input)
      ensures nodes == BuildFrom(table.edgeIn, table.edgeOut, [], Roots(table.edgeIn, AllNodes(|defs|)), false)
      ensures PredecessorsFirst(table.edgeIn, nodes) && OffCycles(table.edgeOut, nodes)
      ensures countsAgree <==> |nodes| == |defs|
    {
      var t := BuildTable(defs);
      table := t;
      var all := AllNodes(|defs|);
      var sorted, ok := SortNodes(t, all);
      nodes := sorted;
      countsAgree := ok;
    }

    /** `removeLonely()`: the node list keeps the nodes with an edge. */
    method RemoveLonely()
      requires Valid()
      modifies this`nodes
      ensures Valid() && nodes == Connected(table.edgeIn, table.edgeOut, old(nodes))
      ensures forall v :: v in nodes ==> !table.IsLonely(v)
      ensures forall v :: v in old(nodes) && !table.IsLonely(v) ==> v in nodes
    {
      nodes := Connected(table.edgeIn, table.edgeOut, nodes);
    }
  }
}
