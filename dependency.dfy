/** The dependency (execution) order of Sources/Graph/DependencyListBuilder.swift.

    `buildExecutionList(node:)` appends a node once every one of its incoming
    nodes is already listed and then visits its outgoing nodes in edge order.
    `BuildOne`/`BuildEach`/`BuildFrom` state that traversal on the adjacency
    lists of a `NodeTable`; the builder class runs it in place on its `nodes`
    field and is proved to compute exactly those functions.

    The source recursion terminates only on graphs whose outgoing entries are
    mirrored by incoming ones (what linking through `addIncomingEdge` keeps):
    the nodes on the recursion stack form a path of listed nodes, no listed
    node lies on a cycle, so the path never repeats a node. */
module Dependency {
  import opened SeqUtil
  import opened Graph

  /** Lists over nodes `0..|ins|` whose every outgoing entry has its incoming mirror. */
  ghost predicate Linked(ins: seq<seq<Id>>, outs: seq<seq<Id>>) {
    |ins| == |outs| &&
    (forall v :: 0 <= v < |ins| ==> Bounded(ins[v], |ins|) && Bounded(outs[v], |ins|)) &&
    (forall u: Id, w: Id :: u < |outs| && w in outs[u] ==> w < |ins| && u in ins[w])
  }

  lemma TableLinked(g: NodeTable)
    requires g.Valid() && g.OutMirrored()
    ensures Linked(g.edgeIn, g.edgeOut)
  {
  }

  /** Every listed node comes after all of its incoming nodes. */
  ghost predicate PredecessorsFirst(ins: seq<seq<Id>>, list: seq<Id>) {
    forall i :: 0 <= i < |list| ==> list[i] < |ins| && forall p :: p in ins[list[i]] ==> p in list[..i]
  }

  /** `c` is a closed walk along outgoing edges. */
  ghost predicate IsCycle(outs: seq<seq<Id>>, c: seq<Id>) {
    |c| > 0 &&
    (forall i :: 0 <= i < |c| ==> c[i] < |outs|) &&
    (forall i :: 0 <= i < |c| - 1 ==> c[i + 1] in outs[c[i]]) &&
    c[0] in outs[c[|c| - 1]]
  }

  /** No listed node lies on a cycle. */
  ghost predicate OffCycles(outs: seq<seq<Id>>, list: seq<Id>) {
    forall c, i :: IsCycle(outs, c) && 0 <= i < |c| ==> c[i] !in list
  }

  /** The guard of `buildExecutionList`: every incoming node is listed. */
  predicate Ready(ins: seq<seq<Id>>, list: seq<Id>, v: Id)
    requires v < |ins|
  {
    forall p :: p in ins[v] ==> p in list
  }

  /** The recursion stack `path` is a walk along outgoing edges of listed, distinct nodes. */
  ghost predicate Stack(outs: seq<seq<Id>>, list: seq<Id>, path: seq<Id>) {
    NoDup(path) &&
    (forall i :: 0 <= i < |path| ==> path[i] < |outs|) &&
    (forall i :: 0 <= i < |path| - 1 ==> path[i + 1] in outs[path[i]]) &&
    (forall x :: x in path ==> x in list)
  }

  /** ... and `node` is an outgoing entry of the top of the stack. */
  ghost predicate OnPath(outs: seq<seq<Id>>, list: seq<Id>, path: seq<Id>, node: Id) {
    Stack(outs, list, path) && (path != [] ==> node in outs[Last(path)])
  }

  /** Distinct node ids below `n` are at most `n` many. */
  lemma {:induction false} DistinctBounded(s: seq<Id>, n: nat)
    requires NoDup(s) && forall x :: x in s ==> x < n
    ensures |s| <= n
    decreases n
  {
    if s != [] {
      assert s[0] in s;
      var m: Id := n - 1;
      var r := RemoveFirst(s, m);
      RemoveFirstNoDup(s, m);
      forall x | x in r ensures x < m {
        assert x in s && x != m;
      }
      DistinctBounded(r, m);
      if m in s {
        RemoveFirstAt(s, m);
        assert |r| == |s| - 1;
      }
    }
  }

  /** Distinct node ids below `n` that miss one of them are fewer than `n`. */
  lemma {:induction false} DistinctMissing(s: seq<Id>, n: nat, m: Id)
    requires NoDup(s) && (forall x :: x in s ==> x < n) && m < n && m !in s
    ensures |s| < n
    decreases n
  {
    var top: Id := n - 1;
    if m == top {
      DistinctBounded(s, top);
    } else {
      var r := RemoveFirst(s, top);
      RemoveFirstNoDup(s, top);
      forall x | x in r ensures x < top {
        assert x in s && x != top;
      }
      DistinctMissing(r, top, m);
      if top in s {
        RemoveFirstAt(s, top);
      }
    }
  }

  /** A list that holds every id below `n` has at least `n` entries. */
  lemma {:induction false} CoverBound(s: seq<Id>, n: nat)
    requires forall v :: 0 <= v < n ==> v in s
    ensures |s| >= n
    decreases n
  {
    if n > 0 {
      var top: Id := n - 1;
      var r := RemoveFirst(s, top);
      RemoveFirstAt(s, top);
      var i := FirstIndex(s, top);
      forall v | 0 <= v < top ensures v in r {
        assert v in s;
        var k :| 0 <= k < |s| && s[k] == v;
        if k < i {
          assert r[k] == v;
        } else {
          assert k > i && r[k - 1] == v;
        }
      }
      CoverBound(r, top);
    }
  }

  /** A node reached from the top of the stack is not on the stack. */
  lemma PathExtends(ins: seq<seq<Id>>, outs: seq<seq<Id>>, list: seq<Id>, path: seq<Id>, node: Id)
    requires Linked(ins, outs) && node < |ins|
    requires OffCycles(outs, list) && OnPath(outs, list, path, node)
    requires node in list
    ensures node !in path && NoDup(path + [node]) && |path| + 1 <= |ins|
  {
    if node in path {
      var i := FirstIndex(path, node);
      var c := path[i..];
      assert c[0] == node && c[|c| - 1] == path[|path| - 1];
      forall j | 0 <= j < |c| - 1 ensures c[j + 1] in outs[c[j]] {
        assert c[j] == path[i + j] && c[j + 1] == path[i + j + 1];
      }
      assert IsCycle(outs, c);
      assert false;
    }
    DistinctBounded(path + [node], |ins|);
  }

  /** Pushing a listed node that extends the walk. */
  lemma StackPush(outs: seq<seq<Id>>, list: seq<Id>, path: seq<Id>, node: Id)
    requires OnPath(outs, list, path, node) && node in list && node < |outs| && NoDup(path + [node])
    ensures Stack(outs, list, path + [node]) && Last(path + [node]) == node
  {
    var p := path + [node];
    forall i | 0 <= i < |p| - 1 ensures p[i + 1] in outs[p[i]] {
      if i < |path| - 1 {
        assert p[i] == path[i] && p[i + 1] == path[i + 1];
      }
    }
  }

  /** Appending a ready node keeps both invariants of the list. */
  lemma AppendKeeps(ins: seq<seq<Id>>, outs: seq<seq<Id>>, list: seq<Id>, node: Id)
    requires Linked(ins, outs) && node < |ins|
    requires PredecessorsFirst(ins, list) && OffCycles(outs, list) && Ready(ins, list, node)
    ensures PredecessorsFirst(ins, list + [node]) && OffCycles(outs, list + [node])
  {
    var l := list + [node];
    forall i | 0 <= i < |l| ensures l[i] < |ins| && forall p :: p in ins[l[i]] ==> p in l[..i] {
      if i < |list| {
        assert l[..i] == list[..i];
      } else {
        assert l[..i] == list;
      }
    }
    forall c, i | IsCycle(outs, c) && 0 <= i < |c| ensures c[i] !in l {
      var k := if i == 0 then |c| - 1 else i - 1;
      assert c[i] in outs[c[k]];
      assert c[k] in ins[c[i]] && c[k] !in list;
    }
  }

  /** Listing a ready node and pushing it on the stack keeps the invariants
      of the recursion. */
  lemma Push(ins: seq<seq<Id>>, outs: seq<seq<Id>>, list: seq<Id>, path: seq<Id>, node: Id)
    requires Linked(ins, outs) && node < |ins|
    requires PredecessorsFirst(ins, list) && OffCycles(outs, list) && OnPath(outs, list, path, node)
    requires Ready(ins, list, node)
    ensures PredecessorsFirst(ins, list + [node]) && OffCycles(outs, list + [node])
    ensures Stack(outs, list + [node], path + [node]) && Last(path + [node]) == node && |path| + 1 <= |ins|
  {
    AppendKeeps(ins, outs, list, node);
    PathExtends(ins, outs, list + [node], path, node);
    StackPush(outs, list + [node], path, node);
  }

  /** `buildExecutionList(node:)` on list `list`, with the nodes of `path`
      on the recursion stack. With `once`, a node already listed is skipped
      as well (the corrected guard; see `ListedOnce`). */
  ghost function BuildOne(ins: seq<seq<Id>>, outs: seq<seq<Id>>, list: seq<Id>, node: Id, path: seq<Id>, once: bool): (r: seq<Id>)
    requires Linked(ins, outs) && node < |ins|
    requires PredecessorsFirst(ins, list) && OffCycles(outs, list) && OnPath(outs, list, path, node)
    ensures list <= r && PredecessorsFirst(ins, r) && OffCycles(outs, r)
    ensures (Ready(ins, list, node) && !(once && node in list)) <==> (|r| > |list| && r[|list|] == node)
    decreases |ins| - |path|, 0
  {
    if !Ready(ins, list, node) || (once && node in list) then list
    else
      Push(ins, outs, list, path, node);
      BuildEach(ins, outs, list + [node], outs[node], path + [node], once)
  }

  /** The loop over the outgoing nodes of the top of the stack `path`. */
  ghost function BuildEach(ins: seq<seq<Id>>, outs: seq<seq<Id>>, list: seq<Id>, succs: seq<Id>, path: seq<Id>, once: bool): (r: seq<Id>)
    requires Linked(ins, outs) && path != [] && |path| <= |ins|
    requires PredecessorsFirst(ins, list) && OffCycles(outs, list) && Stack(outs, list, path)
    requires forall s :: s in succs ==> s in outs[Last(path)]
    ensures list <= r && PredecessorsFirst(ins, r) && OffCycles(outs, r)
    decreases |ins| - |path|, |succs| + 1
  {
    if succs == [] then list
    else
      assert succs[0] in succs && Last(path) < |outs|;
      var r1 := BuildOne(ins, outs, list, succs[0], path, once);
      assert forall s :: s in succs[1..] ==> s in succs;
      BuildEach(ins, outs, r1, succs[1..], path, once)
  }

  /** `list(from: inputs)`: `buildExecutionList` on each input in turn, from an empty stack. */
  ghost function BuildFrom(ins: seq<seq<Id>>, outs: seq<seq<Id>>, list: seq<Id>, inputs: seq<Id>, once: bool): (r: seq<Id>)
    requires Linked(ins, outs) && Bounded(inputs, |ins|)
    requires PredecessorsFirst(ins, list) && OffCycles(outs, list)
    ensures list <= r && PredecessorsFirst(ins, r) && OffCycles(outs, r)
    decreases |inputs|
  {
    if inputs == [] then list
    else
      assert inputs[0] in inputs;
      assert forall y :: y in inputs[1..] ==> y in inputs;
      BuildFrom(ins, outs, BuildOne(ins, outs, list, inputs[0], [], once), inputs[1..], once)
  }

  /** `list(from: x)` is `list(from: [x])`. */
  lemma BuildFromSingle(ins: seq<seq<Id>>, outs: seq<seq<Id>>, list: seq<Id>, x: Id, once: bool)
    requires Linked(ins, outs) && x < |ins|
    requires PredecessorsFirst(ins, list) && OffCycles(outs, list)
    ensures BuildFrom(ins, outs, list, [x], once) == BuildOne(ins, outs, list, x, [], once)
  {
    assert [x][1..] == [];
  }

  /** With the corrected guard no node is listed twice. */
  lemma {:induction false} ListedOnceOne(ins: seq<seq<Id>>, outs: seq<seq<Id>>, list: seq<Id>, node: Id, path: seq<Id>)
    requires Linked(ins, outs) && node < |ins|
    requires PredecessorsFirst(ins, list) && OffCycles(outs, list) && OnPath(outs, list, path, node)
    requires NoDup(list)
    ensures NoDup(BuildOne(ins, outs, list, node, path, true))
    decreases |ins| - |path|, 0
  {
    if Ready(ins, list, node) && node !in list {
      Push(ins, outs, list, path, node);
      NoDupAppend(list, node);
      ListedOnceEach(ins, outs, list + [node], outs[node], path + [node]);
    }
  }

  lemma {:induction false} ListedOnceEach(ins: seq<seq<Id>>, outs: seq<seq<Id>>, list: seq<Id>, succs: seq<Id>, path: seq<Id>)
    requires Linked(ins, outs) && path != [] && |path| <= |ins|
    requires PredecessorsFirst(ins, list) && OffCycles(outs, list) && Stack(outs, list, path)
    requires forall s :: s in succs ==> s in outs[Last(path)]
    requires NoDup(list)
    ensures NoDup(BuildEach(ins, outs, list, succs, path, true))
    decreases |ins| - |path|, |succs| + 1
  {
    if succs != [] {
      assert succs[0] in succs && Last(path) < |outs|;
      ListedOnceOne(ins, outs, list, succs[0], path);
      var r1 := BuildOne(ins, outs, list, succs[0], path, true);
      assert forall s :: s in succs[1..] ==> s in succs;
      ListedOnceEach(ins, outs, r1, succs[1..], path);
    }
  }

  lemma {:induction false} ListedOnce(ins: seq<seq<Id>>, outs: seq<seq<Id>>, list: seq<Id>, inputs: seq<Id>)
    requires Linked(ins, outs) && Bounded(inputs, |ins|)
    requires PredecessorsFirst(ins, list) && OffCycles(outs, list) && NoDup(list)
    ensures NoDup(BuildFrom(ins, outs, list, inputs, true))
    decreases |inputs|
  {
    if inputs != [] {
      assert inputs[0] in inputs;
      assert forall y :: y in inputs[1..] ==> y in inputs;
      ListedOnceOne(ins, outs, list, inputs[0], []);
      ListedOnce(ins, outs, BuildOne(ins, outs, list, inputs[0], [], true), inputs[1..]);
    }
  }

  /** Every incoming entry has its outgoing mirror (the other half of `Mirrored`). */
  ghost predicate InMirrored(ins: seq<seq<Id>>, outs: seq<seq<Id>>) {
    forall v: Id, p: Id :: v < |ins| && p in ins[v] ==> p < |outs| && v in outs[p]
  }

  /** No closed walk along outgoing edges. */
  ghost predicate Acyclic(outs: seq<seq<Id>>) {
    forall c :: !IsCycle(outs, c)
  }

  /** Each node listed from position `from` on has had its outgoing nodes
      visited: an outgoing node that the list up to that entry makes ready
      is listed. */
  ghost predicate VisitedFrom(ins: seq<seq<Id>>, outs: seq<seq<Id>>, r: seq<Id>, from: nat) {
    forall i, w :: from <= i < |r| && r[i] < |outs| && w in outs[r[i]] && w < |ins| && Ready(ins, r[..i + 1], w) ==> w in r
  }

  lemma ReadyGrows(ins: seq<seq<Id>>, a: seq<Id>, b: seq<Id>, v: Id)
    requires a <= b && v < |ins| && Ready(ins, a, v)
    ensures Ready(ins, b, v)
  {
    forall p | p in ins[v] ensures p in b {
      var k :| 0 <= k < |a| && a[k] == p;
      assert b[k] == p;
    }
  }

  lemma InPrefix(a: seq<Id>, b: seq<Id>, x: Id)
    requires a <= b && x in a
    ensures x in b
  {
    var k :| 0 <= k < |a| && a[k] == x;
    assert b[k] == x;
  }

  /** Visits recorded from `a` in a prefix and from its end in the whole
      make visits recorded from `a` in the whole. */
  lemma VisitedJoin(ins: seq<seq<Id>>, outs: seq<seq<Id>>, r1: seq<Id>, r: seq<Id>, a: nat)
    requires a <= |r1| && r1 <= r
    requires VisitedFrom(ins, outs, r1, a) && VisitedFrom(ins, outs, r, |r1|)
    ensures VisitedFrom(ins, outs, r, a)
  {
    forall i, w | a <= i < |r| && r[i] < |outs| && w in outs[r[i]] && w < |ins| && Ready(ins, r[..i + 1], w)
      ensures w in r
    {
      if i < |r1| {
        assert r[..i + 1] == r1[..i + 1] && r[i] == r1[i];
        InPrefix(r1, r, w);
      }
    }
  }

  /** The ready entries of `succs` are listed when its head was listed if
      ready and its tail listed if ready later. */
  lemma ReadyJoin(ins: seq<seq<Id>>, list: seq<Id>, r1: seq<Id>, r: seq<Id>, succs: seq<Id>)
    requires list <= r1 <= r && succs != []
    requires succs[0] < |ins| && Ready(ins, list, succs[0]) ==> succs[0] in r1
    requires forall s :: s in succs[1..] && s < |ins| && Ready(ins, r1, s) ==> s in r
    ensures forall s :: s in succs && s < |ins| && Ready(ins, list, s) ==> s in r
  {
    forall s | s in succs && s < |ins| && Ready(ins, list, s) ensures s in r {
      if s == succs[0] {
        InPrefix(r1, r, s);
      } else {
        assert s in succs[1..] by {
          var k :| 0 <= k < |succs| && succs[k] == s;
          assert succs[1..][k - 1] == s;
        }
        ReadyGrows(ins, list, r1, s);
      }
    }
  }

  /** Appending `node` and then visiting its outgoing nodes records the visit of `node`. */
  lemma VisitedPush(ins: seq<seq<Id>>, outs: seq<seq<Id>>, list: seq<Id>, node: Id, r: seq<Id>)
    requires list + [node] <= r && node < |outs|
    requires VisitedFrom(ins, outs, r, |list| + 1)
    requires forall s :: s in outs[node] && s < |ins| && Ready(ins, list + [node], s) ==> s in r
    ensures VisitedFrom(ins, outs, r, |list|)
  {
    forall i, w | |list| <= i < |r| && r[i] < |outs| && w in outs[r[i]] && w < |ins| && Ready(ins, r[..i + 1], w)
      ensures w in r
    {
      if i == |list| {
        assert r[..i + 1] == list + [node];
      }
    }
  }

  /** `buildExecutionList(node:)` lists a ready node and visits the outgoing
      nodes of every node it lists. */
  lemma {:induction false} VisitsOne(ins: seq<seq<Id>>, outs: seq<seq<Id>>, list: seq<Id>, node: Id, path: seq<Id>, once: bool)
    requires Linked(ins, outs) && node < |ins|
    requires PredecessorsFirst(ins, list) && OffCycles(outs, list) && OnPath(outs, list, path, node)
    ensures VisitedFrom(ins, outs, BuildOne(ins, outs, list, node, path, once), |list|)
    ensures Ready(ins, list, node) ==> node in BuildOne(ins, outs, list, node, path, once)
    decreases |ins| - |path|, 0
  {
    if Ready(ins, list, node) && !(once && node in list) {
      Push(ins, outs, list, path, node);
      var l1 := list + [node];
      VisitsEach(ins, outs, l1, outs[node], path + [node], once);
      var r := BuildEach(ins, outs, l1, outs[node], path + [node], once);
      assert r == BuildOne(ins, outs, list, node, path, once);
      VisitedPush(ins, outs, list, node, r);
    }
  }

  /** The loop over outgoing nodes lists every one of them that was ready
      when the loop began, and keeps visiting. */
  lemma {:induction false} VisitsEach(ins: seq<seq<Id>>, outs: seq<seq<Id>>, list: seq<Id>, succs: seq<Id>, path: seq<Id>, once: bool)
    requires Linked(ins, outs) && path != [] && |path| <= |ins|
    requires PredecessorsFirst(ins, list) && OffCycles(outs, list) && Stack(outs, list, path)
    requires forall s :: s in succs ==> s in outs[Last(path)]
    ensures VisitedFrom(ins, outs, BuildEach(ins, outs, list, succs, path, once), |list|)
    ensures forall s :: s in succs && s < |ins| && Ready(ins, list, s) ==> s in BuildEach(ins, outs, list, succs, path, once)
    decreases |ins| - |path|, |succs| + 1
  {
    if succs != [] {
      assert succs[0] in succs && Last(path) < |outs|;
      var r1 := BuildOne(ins, outs, list, succs[0], path, once);
      VisitsOne(ins, outs, list, succs[0], path, once);
      assert forall s :: s in succs[1..] ==> s in succs;
      var r := BuildEach(ins, outs, r1, succs[1..], path, once);
      VisitsEach(ins, outs, r1, succs[1..], path, once);
      assert r == BuildEach(ins, outs, list, succs, path, once);
      VisitedJoin(ins, outs, r1, r, |list|);
      ReadyJoin(ins, list, r1, r, succs);
    }
  }

  /** `list(from:)` lists every input that is ready, and visits from every node it lists. */
  lemma {:induction false} VisitsFrom(ins: seq<seq<Id>>, outs: seq<seq<Id>>, list: seq<Id>, inputs: seq<Id>, once: bool)
    requires Linked(ins, outs) && Bounded(inputs, |ins|)
    requires PredecessorsFirst(ins, list) && OffCycles(outs, list)
    ensures VisitedFrom(ins, outs, BuildFrom(ins, outs, list, inputs, once), |list|)
    ensures forall x :: x in inputs && x < |ins| && Ready(ins, list, x) ==> x in BuildFrom(ins, outs, list, inputs, once)
    decreases |inputs|
  {
    if inputs != [] {
      assert inputs[0] in inputs;
      assert forall y :: y in inputs[1..] ==> y in inputs;
      var r1 := BuildOne(ins, outs, list, inputs[0], [], once);
      VisitsOne(ins, outs, list, inputs[0], [], once);
      var r := BuildFrom(ins, outs, r1, inputs[1..], once);
      VisitsFrom(ins, outs, r1, inputs[1..], once);
      assert r == BuildFrom(ins, outs, list, inputs, once);
      VisitedJoin(ins, outs, r1, r, |list|);
      ReadyJoin(ins, list, r1, r, inputs);
    }
  }

  /** The first entry of `r` after which `v` is ready. */
  lemma {:induction false} ReadyFrom(ins: seq<seq<Id>>, r: seq<Id>, v: Id, k: nat) returns (i: nat)
    requires v < |ins| && k <= |r| && !Ready(ins, r[..k], v) && Ready(ins, r, v)
    ensures k <= i < |r| && r[i] in ins[v] && Ready(ins, r[..i + 1], v)
    decreases |r| - k
  {
    if Ready(ins, r[..k + 1], v) {
      var p :| p in ins[v] && p !in r[..k];
      assert p in r[..k + 1];
      assert r[..k + 1] == r[..k] + [r[k]];
      i := k;
    } else {
      assert k + 1 != |r| by { assert r[..|r|] == r; }
      i := ReadyFrom(ins, r, v, k + 1);
    }
  }

  /** In a mirrored table, a finished list holds every node it makes ready. */
  lemma ClosedUnderReady(ins: seq<seq<Id>>, outs: seq<seq<Id>>, r: seq<Id>, inputs: seq<Id>, v: Id)
    requires Linked(ins, outs) && InMirrored(ins, outs) && v < |ins|
    requires VisitedFrom(ins, outs, r, 0) && (forall x :: x in inputs && x < |ins| && Ready(ins, [], x) ==> x in r)
    requires ins[v] == [] ==> v in inputs
    requires Ready(ins, r, v)
    ensures v in r
  {
    if ins[v] != [] {
      assert ins[v][0] in ins[v];
      assert r[..0] == [];
      var i := ReadyFrom(ins, r, v, 0);
      assert v in outs[r[i]];
    }
  }

  /** A node left out of a closed list has an unlisted predecessor, and so
      on backwards: a walk of `n + 1` unlisted nodes ends at it. */
  lemma {:induction false} UnlistedWalk(ins: seq<seq<Id>>, outs: seq<seq<Id>>, r: seq<Id>, v: Id, n: nat) returns (walk: seq<Id>)
    requires |ins| == |outs| && InMirrored(ins, outs) && v < |ins| && v !in r
    requires forall w :: 0 <= w < |ins| && Ready(ins, r, w) ==> w in r
    ensures |walk| == n + 1 && walk[n] == v
    ensures forall k :: 0 <= k < |walk| ==> walk[k] < |ins| && walk[k] !in r
    ensures forall k :: 0 <= k < n ==> walk[k + 1] in outs[walk[k]]
    decreases n
  {
    if n == 0 {
      walk := [v];
    } else {
      var p := UnlistedPredecessor(ins, r, v);
      assert p < |ins| && v in outs[p];
      var w0 := UnlistedWalk(ins, outs, r, p, n - 1);
      walk := w0 + [v];
      forall k | 0 <= k < |walk| ensures walk[k] < |ins| && walk[k] !in r {
        if k < n {
          assert walk[k] == w0[k];
        }
      }
      forall k | 0 <= k < n ensures walk[k + 1] in outs[walk[k]] {
        if k < n - 1 {
          assert walk[k] == w0[k] && walk[k + 1] == w0[k + 1];
        } else {
          assert walk[k] == p;
        }
      }
    }
  }

  lemma UnlistedPredecessor(ins: seq<seq<Id>>, r: seq<Id>, v: Id) returns (p: Id)
    requires v < |ins| && !Ready(ins, r, v)
    ensures p in ins[v] && p !in r
  {
    p :| p in ins[v] && p !in r;
  }

  /** A walk longer than the number of nodes repeats a node, so it holds a cycle. */
  lemma LongWalkCycles(outs: seq<seq<Id>>, walk: seq<Id>)
    requires |walk| > |outs| && (forall k :: 0 <= k < |walk| ==> walk[k] < |outs|)
    requires forall k :: 0 <= k < |walk| - 1 ==> walk[k + 1] in outs[walk[k]]
    ensures !Acyclic(outs)
  {
    if NoDup(walk) {
      DistinctBounded(walk, |outs|);
    }
    var i, j :| 0 <= i < j < |walk| && walk[i] == walk[j];
    var c := walk[i..j];
    forall k | 0 <= k < |c| - 1 ensures c[k + 1] in outs[c[k]] {
      assert c[k] == walk[i + k] && c[k + 1] == walk[i + k + 1];
    }
    assert c[|c| - 1] == walk[j - 1];
    assert IsCycle(outs, c);
  }

  /** Completeness: in an acyclic mirrored table, `list(from:)` started from a list
      of inputs that holds every node without incoming nodes lists every node. */
  lemma BuildFromComplete(ins: seq<seq<Id>>, outs: seq<seq<Id>>, inputs: seq<Id>, once: bool)
    requires Linked(ins, outs) && InMirrored(ins, outs) && Bounded(inputs, |ins|) && Acyclic(outs)
    requires forall v :: 0 <= v < |ins| && ins[v] == [] ==> v in inputs
    ensures forall v :: 0 <= v < |ins| ==> v in BuildFrom(ins, outs, [], inputs, once)
  {
    var r := BuildFrom(ins, outs, [], inputs, once);
    VisitsFrom(ins, outs, [], inputs, once);
    forall w | 0 <= w < |ins| && Ready(ins, r, w) ensures w in r {
      ClosedUnderReady(ins, outs, r, inputs, w);
    }
    forall v | 0 <= v < |ins| ensures v in r {
      if v !in r {
        var walk := UnlistedWalk(ins, outs, r, v, |ins|);
        LongWalkCycles(outs, walk);
      }
    }
  }

  /** A node on a cycle is never listed. */
  lemma CycleNodesUnlisted(ins: seq<seq<Id>>, outs: seq<seq<Id>>, list: seq<Id>, inputs: seq<Id>, once: bool, c: seq<Id>)
    requires Linked(ins, outs) && Bounded(inputs, |ins|)
    requires PredecessorsFirst(ins, list) && OffCycles(outs, list)
    requires IsCycle(outs, c)
    ensures c[0] !in BuildFrom(ins, outs, list, inputs, once)
  {
  }

  /** Edges 0->1, 0->2, 1->2 and a self-loop on 3. */
  const TriangleIns: seq<seq<Id>> := [[], [0], [0, 1], [3]]
  const TriangleOuts: seq<seq<Id>> := [[1, 2], [2], [], [3]]

  lemma TriangleLinked()
    ensures Linked(TriangleIns, TriangleOuts)
  {
    var ins, outs := TriangleIns, TriangleOuts;
    forall u: Id, w: Id | u < |outs| && w in outs[u] ensures w < |ins| && u in ins[w] {
      assert u == 0 || u == 1 || u == 2 || u == 3;
    }
  }

  /** Only node 3 lies on a cycle. */
  lemma TriangleOffCycles(list: seq<Id>)
    requires 3 !in list
    ensures OffCycles(TriangleOuts, list)
  {
    var outs := TriangleOuts;
    forall c, i | IsCycle(outs, c) && 0 <= i < |c| ensures c[i] !in list {
      var k1 := if i == 0 then |c| - 1 else i - 1;
      var k2 := if k1 == 0 then |c| - 1 else k1 - 1;
      var k3 := if k2 == 0 then |c| - 1 else k2 - 1;
      assert c[i] in outs[c[k1]] && c[k1] in outs[c[k2]] && c[k2] in outs[c[k3]];
    }
  }

  /** As written, a node reached again after all of its incoming nodes are
      listed passes the guard a second time and is listed twice. */
  lemma Relisted(ins: seq<seq<Id>>, outs: seq<seq<Id>>, list: seq<Id>, node: Id, path: seq<Id>)
    requires Linked(ins, outs) && node < |ins|
    requires PredecessorsFirst(ins, list) && OffCycles(outs, list) && OnPath(outs, list, path, node)
    requires Ready(ins, list, node) && node in list
    ensures !NoDup(BuildOne(ins, outs, list, node, path, false))
  {
    var r := BuildOne(ins, outs, list, node, path, false);
    var j := FirstIndex(list, node);
    assert r[j] == r[|list|];
  }

  /** In the graph 0->1, 0->2, 1->2 (plus the self-loop on 3), `list(from: [0])`
      lists 0, then 1 and 2 through 1, and comes back to 2 from 0 with stack [0]:
      as written 2 is listed again; with the corrected guard it is not. */
  lemma TriangleRelists()
    ensures Linked(TriangleIns, TriangleOuts) && OffCycles(TriangleOuts, [0, 1, 2]) && PredecessorsFirst(TriangleIns, [0, 1, 2])
    ensures OnPath(TriangleOuts, [0, 1, 2], [0], 2)
    ensures !NoDup(BuildOne(TriangleIns, TriangleOuts, [0, 1, 2], 2, [0], false))
    ensures NoDup(BuildOne(TriangleIns, TriangleOuts, [0, 1, 2], 2, [0], true))
  {
    TriangleLinked();
    TriangleOffCycles([0, 1, 2]);
    TriangleOrdered();
    assert OnPath(TriangleOuts, [0, 1, 2], [0], 2);
    Relisted(TriangleIns, TriangleOuts, [0, 1, 2], 2, [0]);
    ListedOnceOne(TriangleIns, TriangleOuts, [0, 1, 2], 2, [0]);
  }

  /** [0, 1, 2] is in dependency order, and 2 is ready once 0 and 1 are listed. */
  lemma TriangleOrdered()
    ensures PredecessorsFirst(TriangleIns, [0, 1, 2]) && NoDup([0, 1, 2]) && Ready(TriangleIns, [0, 1, 2], 2)
  {
    var list: seq<Id> := [0, 1, 2];
    assert list[..0] == [] && list[..1] == [0] && list[..2] == [0, 1];
  }

  /** `DependencyListBuilder`: the list accumulates in `nodes` across calls. */
  class DependencyListBuilder {
    var nodes: seq<Id>

    constructor ()
      ensures nodes == []
    {
      nodes := [];
    }

    /** `list(from: inputs)`. */
    method ListFrom(g: NodeTable, inputs: seq<Id>) returns (r: seq<Id>)
      requires g.Valid() && g.OutMirrored() && Bounded(inputs, g.Size())
      requires PredecessorsFirst(g.edgeIn, nodes) && OffCycles(g.edgeOut, nodes)
      modifies this
      ensures Linked(g.edgeIn, g.edgeOut)
      ensures r == nodes == BuildFrom(g.edgeIn, g.edgeOut, old(nodes), inputs, false)
    {
      TableLinked(g);
      var i := 0;
      while i < |inputs|
        invariant 0 <= i <= |inputs|
        invariant PredecessorsFirst(g.edgeIn, nodes) && OffCycles(g.edgeOut, nodes)
        invariant forall y :: y in inputs[i..] ==> y in inputs
        invariant BuildFrom(g.edgeIn, g.edgeOut, nodes, inputs[i..], false) == BuildFrom(g.edgeIn, g.edgeOut, old(nodes), inputs, false)
      {
        assert inputs[i] in inputs;
        assert inputs[i..][1..] == inputs[i + 1..];
        BuildExecutionList(g, inputs[i], []);
        i := i + 1;
      }
      r := nodes;
    }

    /** `list(from: input)`, which delegates to `list(from: [input])`. */
    method ListFromNode(g: NodeTable, x: Id) returns (r: seq<Id>)
      requires g.Valid() && g.OutMirrored() && g.Has(x)
      requires PredecessorsFirst(g.edgeIn, nodes) && OffCycles(g.edgeOut, nodes)
      modifies this
      ensures Linked(g.edgeIn, g.edgeOut)
      ensures r == nodes == BuildOne(g.edgeIn, g.edgeOut, old(nodes), x, [], false)
    {
      r := ListFrom(g, [x]);
      BuildFromSingle(g.edgeIn, g.edgeOut, old(nodes), x, false);
    }

    /** `buildExecutionList(node:)`; `path` is the ghost recursion stack. */
    method BuildExecutionList(g: NodeTable, node: Id, ghost path: seq<Id>)
      requires Linked(g.edgeIn, g.edgeOut) && node < |g.edgeIn|
      requires PredecessorsFirst(g.edgeIn, nodes) && OffCycles(g.edgeOut, nodes) && OnPath(g.edgeOut, nodes, path, node)
      modifies this
      ensures nodes == BuildOne(g.edgeIn, g.edgeOut, old(nodes), node, path, false)
      decreases |g.edgeIn| - |path|, 0
    {
      if !Ready(g.edgeIn, nodes, node) {
        return;
      }
      AppendKeeps(g.edgeIn, g.edgeOut, nodes, node);
      PathExtends(g.edgeIn, g.edgeOut, nodes + [node], path, node);
      StackPush(g.edgeOut, nodes + [node], path, node);
      nodes := nodes + [node];
      VisitEach(g, g.edgeOut[node], path + [node]);
    }

    /** The loop of `buildExecutionList` over the outgoing nodes of the top of the stack. */
    method VisitEach(g: NodeTable, succs: seq<Id>, ghost stack: seq<Id>)
      requires Linked(g.edgeIn, g.edgeOut) && stack != [] && |stack| <= |g.edgeIn|
      requires PredecessorsFirst(g.edgeIn, nodes) && OffCycles(g.edgeOut, nodes) && Stack(g.edgeOut, nodes, stack)
      requires forall s :: s in succs ==> s in g.edgeOut[Last(stack)]
      modifies this
      ensures nodes == BuildEach(g.edgeIn, g.edgeOut, old(nodes), succs, stack, false)
      decreases |g.edgeIn| - |stack|, |succs| + 1
    {
      assert Last(stack) < |g.edgeOut|;
      var i := 0;
      while i < |succs|
        invariant 0 <= i <= |succs|
        invariant PredecessorsFirst(g.edgeIn, nodes) && OffCycles(g.edgeOut, nodes) && Stack(g.edgeOut, nodes, stack)
        invariant BuildEach(g.edgeIn, g.edgeOut, nodes, succs[i..], stack, false) == BuildEach(g.edgeIn, g.edgeOut, old(nodes), succs, stack, false)
      {
        assert succs[i] in succs;
        assert succs[i..][1..] == succs[i + 1..];
        assert forall s :: s in succs[i + 1..] ==> s in succs;
        BuildExecutionList(g, succs[i], stack);
        i := i + 1;
      }
    }
  }
}
