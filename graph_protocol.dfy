/** The list filters of Sources/Graph/Graph.swift (`GraphProtocol`): the
    input nodes of a list (no incoming node) and the nodes that are not
    lonely. Both keep the order of the list. */
module GraphProtocol {
  import opened SeqUtil
  import opened Graph
  import opened Dependency

  /** `nodes.filter { $0.incomingNodes().count == 0 }`. */
  function Roots(ins: seq<seq<Id>>, list: seq<Id>): (r: seq<Id>)
    requires Bounded(list, |ins|)
    ensures |r| <= |list|
    ensures forall v :: v in r <==> v in list && ins[v] == []
    decreases |list|
  {
    if list == [] then []
    else
      var init, v := list[..|list| - 1], list[|list| - 1];
      assert list == init + [v] && v in list && forall y :: y in init ==> y in list;
      var r0 := Roots(ins, init);
      if ins[v] == [] then r0 + [v] else r0
  }

  /** `nodes.filter { !$0.isLonely }`. */
  function Connected(ins: seq<seq<Id>>, outs: seq<seq<Id>>, list: seq<Id>): (r: seq<Id>)
    requires Bounded(list, |ins|) && |outs| == |ins|
    ensures |r| <= |list|
    ensures forall v :: v in r <==> v in list && (ins[v] != [] || outs[v] != [])
    decreases |list|
  {
    if list == [] then []
    else
      var init, v := list[..|list| - 1], list[|list| - 1];
      assert list == init + [v] && v in list && forall y :: y in init ==> y in list;
      var r0 := Connected(ins, outs, init);
      if ins[v] != [] || outs[v] != [] then r0 + [v] else r0
  }

  /** Removing the lonely nodes twice removes nothing more. */
  lemma {:induction false} ConnectedIdempotent(ins: seq<seq<Id>>, outs: seq<seq<Id>>, list: seq<Id>)
    requires Bounded(list, |ins|) && |outs| == |ins|
    ensures Connected(ins, outs, Connected(ins, outs, list)) == Connected(ins, outs, list)
    decreases |list|
  {
    if list != [] {
      var init, v := list[..|list| - 1], list[|list| - 1];
      assert list == init + [v] && v in list && forall y :: y in init ==> y in list;
      ConnectedIdempotent(ins, outs, init);
      var r0 := Connected(ins, outs, init);
      if ins[v] != [] || outs[v] != [] {
        assert (r0 + [v])[..|r0|] == r0;
      }
    }
  }

  /** Filtering keeps the relative order: every filtered list is a subsequence of `list`. */
  lemma {:induction false} RootsOrdered(ins: seq<seq<Id>>, list: seq<Id>, i: nat, j: nat)
    requires Bounded(list, |ins|)
    requires i < j < |Roots(ins, list)|
    ensures exists a, b :: 0 <= a < b < |list| && list[a] == Roots(ins, list)[i] && list[b] == Roots(ins, list)[j]
    decreases |list|
  {
    var init, v := list[..|list| - 1], list[|list| - 1];
    assert list == init + [v] && v in list && forall y :: y in init ==> y in list;
    var r0 := Roots(ins, init);
    if j < |r0| {
      RootsOrdered(ins, init, i, j);
      var a, b :| 0 <= a < b < |init| && init[a] == r0[i] && init[b] == r0[j];
      assert list[a] == init[a] && list[b] == init[b];
    } else {
      assert Roots(ins, list)[i] == r0[i] && r0[i] in r0;
      var a :| 0 <= a < |init| && init[a] == r0[i];
      assert list[a] == init[a] && list[|list| - 1] == Roots(ins, list)[j];
    }
  }

  /** `sortNodes()`: the roots of `list`, in list order, seed a fresh `DependencyListBuilder`, and
      `sorted` is its list. `ok` is the debug assertion comparing the counts. Every sorted node
      follows its predecessors; a node on a cycle is never sorted; and when the table is acyclic,
      mirrored and wholly listed, every node is sorted. As written, a node can be sorted twice, so
      the counts can agree while a cycle node is lost (`TriangleSortLosesCycle`); with the corrected
      builder they agree exactly when there is no cycle (`SortOnceDetectsCycles`). */
  method SortNodes(g: NodeTable, list: seq<Id>) returns (sorted: seq<Id>, ok: bool)
    requires g.Valid() && g.OutMirrored() && Bounded(list, g.Size())
    ensures sorted == BuildFrom(g.edgeIn, g.edgeOut, [], Roots(g.edgeIn, list), false)
    ensures PredecessorsFirst(g.edgeIn, sorted) && OffCycles(g.edgeOut, sorted)
    ensures InMirrored(g.edgeIn, g.edgeOut) && Acyclic(g.edgeOut) && (forall v :: 0 <= v < g.Size() ==> v in list) ==>
      forall v :: 0 <= v < g.Size() ==> v in sorted
    ensures ok <==> |sorted| == |list|
  {
    var inputs := Roots(g.edgeIn, list);
    var builder := new DependencyListBuilder();
    sorted := builder.ListFrom(g, inputs);
    ok := |list| == |sorted|;
    if InMirrored(g.edgeIn, g.edgeOut) && Acyclic(g.edgeOut) && (forall v :: 0 <= v < g.Size() ==> v in list) {
      BuildFromComplete(g.edgeIn, g.edgeOut, inputs, false);
    }
  }

  /** With the corrected builder, which lists each node once, the count assertion of `sortNodes`
      on a duplicate-free list of every node of a mirrored table holds exactly when the table
      has no cycle. */
  lemma SortOnceDetectsCycles(ins: seq<seq<Id>>, outs: seq<seq<Id>>, list: seq<Id>)
    requires Linked(ins, outs) && InMirrored(ins, outs)
    requires NoDup(list) && Bounded(list, |ins|) && forall v :: 0 <= v < |ins| ==> v in list
    ensures |BuildFrom(ins, outs, [], Roots(ins, list), true)| == |list| <==> Acyclic(outs)
  {
    var sorted := BuildFrom(ins, outs, [], Roots(ins, list), true);
    DistinctBounded(list, |ins|);
    CoverBound(list, |ins|);
    ListedOnce(ins, outs, [], Roots(ins, list));
    assert forall x :: x in sorted ==> x < |ins| by {
      forall x | x in sorted ensures x < |ins| {
        var k :| 0 <= k < |sorted| && sorted[k] == x;
      }
    }
    if Acyclic(outs) {
      BuildFromComplete(ins, outs, Roots(ins, list), true);
      DistinctBounded(sorted, |ins|);
      CoverBound(sorted, |ins|);
    } else {
      var c :| IsCycle(outs, c);
      assert c[0] !in sorted;
      DistinctMissing(sorted, |ins|, c[0]);
    }
  }

  /** The lists of the triangle's sort, each in dependency order. */
  lemma TriangleOrderedPrefixes()
    ensures PredecessorsFirst(TriangleIns, []) && PredecessorsFirst(TriangleIns, [0])
    ensures PredecessorsFirst(TriangleIns, [0, 1]) && PredecessorsFirst(TriangleIns, [0, 1, 2])
  {
    TriangleOrdered();
    var l1: seq<Id> := [0, 1];
    assert l1[..0] == [] && l1[..1] == [0];
  }

  /** The stacks of the triangle's sort. */
  lemma TriangleStacks()
    ensures OnPath(TriangleOuts, [0], [0], 1) && OnPath(TriangleOuts, [0, 1], [0, 1], 2)
    ensures Stack(TriangleOuts, [0, 1, 2], [0]) && OnPath(TriangleOuts, [0, 1, 2], [0], 2)
  {
  }

  /** The preconditions of every step of sorting the triangle graph. */
  lemma TriangleSteps()
    ensures Linked(TriangleIns, TriangleOuts)
    ensures PredecessorsFirst(TriangleIns, []) && OffCycles(TriangleOuts, [])
    ensures PredecessorsFirst(TriangleIns, [0]) && OffCycles(TriangleOuts, [0]) && OnPath(TriangleOuts, [0], [0], 1)
    ensures PredecessorsFirst(TriangleIns, [0, 1]) && OffCycles(TriangleOuts, [0, 1]) && OnPath(TriangleOuts, [0, 1], [0, 1], 2)
    ensures PredecessorsFirst(TriangleIns, [0, 1, 2]) && OffCycles(TriangleOuts, [0, 1, 2]) && Stack(TriangleOuts, [0, 1, 2], [0])
    ensures OnPath(TriangleOuts, [0, 1, 2], [0], 2)
  {
    TriangleLinked();
    TriangleOrderedPrefixes();
    TriangleStacks();
    TriangleOffCycles([]);
    TriangleOffCycles([0]);
    TriangleOffCycles([0, 1]);
    TriangleOffCycles([0, 1, 2]);
  }

  /** With 0 and 1 listed, 2 is ready and is listed; nothing follows it. */
  lemma TriangleTwoAfterOne()
    requires Linked(TriangleIns, TriangleOuts) && PredecessorsFirst(TriangleIns, [0, 1]) && OffCycles(TriangleOuts, [0, 1])
    requires OnPath(TriangleOuts, [0, 1], [0, 1], 2)
    ensures BuildOne(TriangleIns, TriangleOuts, [0, 1], 2, [0, 1], false) == [0, 1, 2]
  {
  }

  /** Listing 1 from [0] lists 1 and then 2 through 1. */
  lemma TriangleThroughOne()
    requires Linked(TriangleIns, TriangleOuts) && PredecessorsFirst(TriangleIns, [0]) && OffCycles(TriangleOuts, [0])
    requires OnPath(TriangleOuts, [0], [0], 1)
    requires PredecessorsFirst(TriangleIns, [0, 1]) && OffCycles(TriangleOuts, [0, 1]) && OnPath(TriangleOuts, [0, 1], [0, 1], 2)
    ensures BuildOne(TriangleIns, TriangleOuts, [0], 1, [0], false) == [0, 1, 2]
  {
    TriangleTwoAfterOne();
    TriangleEachAfterOne();
    var l0: seq<Id> := [0];
    assert l0 + [1] == [0, 1] && TriangleOuts[1] == [2] && Ready(TriangleIns, l0, 1);
  }

  lemma TriangleEachAfterOne()
    requires Linked(TriangleIns, TriangleOuts)
    requires PredecessorsFirst(TriangleIns, [0, 1]) && OffCycles(TriangleOuts, [0, 1]) && OnPath(TriangleOuts, [0, 1], [0, 1], 2)
    requires BuildOne(TriangleIns, TriangleOuts, [0, 1], 2, [0, 1], false) == [0, 1, 2]
    ensures BuildEach(TriangleIns, TriangleOuts, [0, 1], [2], [0, 1], false) == [0, 1, 2]
  {
    assert [2][1..] == [];
  }

  /** Back at 0, the edge to 2 lists 2 a second time. */
  lemma TriangleRevisit()
    requires Linked(TriangleIns, TriangleOuts) && PredecessorsFirst(TriangleIns, [0, 1, 2]) && OffCycles(TriangleOuts, [0, 1, 2])
    requires Stack(TriangleOuts, [0, 1, 2], [0]) && OnPath(TriangleOuts, [0, 1, 2], [0], 2)
    ensures BuildEach(TriangleIns, TriangleOuts, [0, 1, 2], [2], [0], false) == [0, 1, 2, 2]
  {
    TriangleRelist();
    assert [2][1..] == [];
  }

  /** 2 is ready after [0, 1, 2] and is listed again; it has no outgoing node. */
  lemma TriangleRelist()
    requires Linked(TriangleIns, TriangleOuts) && PredecessorsFirst(TriangleIns, [0, 1, 2]) && OffCycles(TriangleOuts, [0, 1, 2])
    requires Stack(TriangleOuts, [0, 1, 2], [0]) && OnPath(TriangleOuts, [0, 1, 2], [0], 2)
    ensures BuildOne(TriangleIns, TriangleOuts, [0, 1, 2], 2, [0], false) == [0, 1, 2, 2]
  {
    TriangleOrdered();
    var l: seq<Id> := [0, 1, 2];
    assert l + [2] == [0, 1, 2, 2] && TriangleOuts[2] == [];
  }

  /** From 0: 1 (and 2 through it), then 2 again. */
  lemma TriangleFromZero()
    requires Linked(TriangleIns, TriangleOuts) && PredecessorsFirst(TriangleIns, []) && OffCycles(TriangleOuts, [])
    requires PredecessorsFirst(TriangleIns, [0]) && OffCycles(TriangleOuts, [0]) && OnPath(TriangleOuts, [0], [0], 1)
    requires PredecessorsFirst(TriangleIns, [0, 1, 2]) && OffCycles(TriangleOuts, [0, 1, 2]) && Stack(TriangleOuts, [0, 1, 2], [0])
    requires BuildOne(TriangleIns, TriangleOuts, [0], 1, [0], false) == [0, 1, 2]
    requires BuildEach(TriangleIns, TriangleOuts, [0, 1, 2], [2], [0], false) == [0, 1, 2, 2]
    ensures BuildOne(TriangleIns, TriangleOuts, [], 0, [], false) == [0, 1, 2, 2]
  {
    var none: seq<Id> := [];
    assert none + [0] == [0] && [1, 2][1..] == [2] && TriangleOuts[0] == [1, 2] && Ready(TriangleIns, none, 0);
    assert BuildEach(TriangleIns, TriangleOuts, [0], [1, 2], [0], false) == [0, 1, 2, 2];
  }

  /** Only 0 has no incoming node. */
  lemma TriangleRoots()
    ensures Roots(TriangleIns, [0, 1, 2, 3]) == [0]
  {
    var l1: seq<Id> := [0];
    var l2: seq<Id> := [0, 1];
    var l3: seq<Id> := [0, 1, 2];
    var l4: seq<Id> := [0, 1, 2, 3];
    assert l1[..0] == [] && l1[0] == 0 && TriangleIns[0] == [];
    assert Roots(TriangleIns, l1) == [0];
    assert l2[..1] == l1 && l2[1] == 1 && TriangleIns[1] != [];
    assert Roots(TriangleIns, l2) == [0];
    assert l3[..2] == l2 && l3[2] == 2 && TriangleIns[2] != [];
    assert Roots(TriangleIns, l3) == [0];
    assert l4[..3] == l3 && l4[3] == 3 && TriangleIns[3] != [];
  }

  /** The triangle graph is mirrored, and 3 lies on a cycle. */
  lemma TriangleMirrored()
    ensures InMirrored(TriangleIns, TriangleOuts) && IsCycle(TriangleOuts, [3])
  {
    var ins, outs := TriangleIns, TriangleOuts;
    forall v: Id, p: Id | v < |ins| && p in ins[v] ensures p < |outs| && v in outs[p] {
      assert v == 0 || v == 1 || v == 2 || v == 3;
    }
  }

  lemma TriangleFrom()
    requires Linked(TriangleIns, TriangleOuts) && PredecessorsFirst(TriangleIns, []) && OffCycles(TriangleOuts, [])
    requires BuildOne(TriangleIns, TriangleOuts, [], 0, [], false) == [0, 1, 2, 2]
    ensures BuildFrom(TriangleIns, TriangleOuts, [], [0], false) == [0, 1, 2, 2]
  {
    assert [0][1..] == [];
  }

  /** As written, on the graph 0->1, 0->2, 1->2 with a self-loop on 3, sorting [0, 1, 2, 3] gives
      [0, 1, 2, 2]: the counts agree, so the assertion passes, although node 3 lies on a cycle and
      is lost. */
  lemma TriangleSortLosesCycle()
    ensures Linked(TriangleIns, TriangleOuts) && InMirrored(TriangleIns, TriangleOuts)
    ensures IsCycle(TriangleOuts, [3])
    ensures Roots(TriangleIns, [0, 1, 2, 3]) == [0]
    ensures BuildFrom(TriangleIns, TriangleOuts, [], [0], false) == [0, 1, 2, 2]
  {
    TriangleSteps();
    TriangleThroughOne();
    TriangleRevisit();
    TriangleFromZero();
    TriangleFrom();
    TriangleRoots();
    TriangleMirrored();
  }
}
