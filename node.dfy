/** The mutable dependency graph of Sources/Graph/Node.swift.

    Every node of a graph (a TensorFlow node or a network layer) is an index
    into one `NodeTable`; `edgeIn[v]` and `edgeOut[v]` are node `v`'s incoming
    and outgoing adjacency lists, in insertion order. The weak references of the
    source become plain indices, and two nodes are the same node exactly when
    their indices are equal. */
module Graph {
  import opened SeqUtil

  type Id = nat

  predicate Bounded(s: seq<Id>, n: nat) {
    forall y :: y in s ==> y < n
  }

  predicate BoundedAt(s: seq<Id>, n: nat) {
    forall k :: 0 <= k < |s| ==> s[k] < n
  }

  lemma BoundedIsBoundedAt(s: seq<Id>, n: nat)
    ensures Bounded(s, n) <==> BoundedAt(s, n)
  {
    if BoundedAt(s, n) {
      forall y | y in s ensures y < n {
        var k :| 0 <= k < |s| && s[k] == y;
      }
    }
    if Bounded(s, n) {
      forall k | 0 <= k < |s| ensures s[k] < n {
        assert s[k] in s;
      }
    }
  }

  function Last(s: seq<Id>): Id
    requires s != []
  {
    s[|s| - 1]
  }

  /** `s` with its first `a` overwritten by `b`, as `replace(incomingEdge:with:)`
      does to an adjacency list; `s` itself when `a` is absent. */
  function Replaced(s: seq<Id>, a: Id, b: Id): seq<Id> {
    if a in s then s[FirstIndex(s, a) := b] else s
  }

  /** How the lists `in1`/`out1` relate to `in0`/`out0` after `u` was added
      as an incoming node of every node of `targets`: each target has `u`
      incoming, only targets gained incoming entries and only `u` gained
      outgoing ones, and nothing was lost. */
  ghost predicate AddedToAll(in0: seq<seq<Id>>, out0: seq<seq<Id>>, in1: seq<seq<Id>>, out1: seq<seq<Id>>,
                             u: Id, targets: seq<Id>)
  {
    |in1| == |in0| && |out0| == |in0| && |out1| == |in0| &&
    (forall k: Id :: 0 <= k < |targets| && targets[k] < |in1| ==> u in in1[targets[k]]) &&
    (forall v: Id :: 0 <= v < |in0| && v !in targets ==> in1[v] == in0[v]) &&
    (forall w: Id :: 0 <= w < |in0| && w != u ==> out1[w] == out0[w]) &&
    (forall v: Id, w: Id :: 0 <= v < |in0| && w in in0[v] ==> w in in1[v]) &&
    (forall w: Id, v: Id :: 0 <= w < |in0| && v in out0[w] ==> v in out1[w]) &&
    (forall v: Id, w: Id :: 0 <= v < |in0| && w in in1[v] ==> w in in0[v] || w == u) &&
    (u < |in0| ==> forall v: Id :: v in out1[u] ==> v in out0[u] || v in targets)
  }

  lemma AddedToAllStep(in0: seq<seq<Id>>, out0: seq<seq<Id>>, in1: seq<seq<Id>>, out1: seq<seq<Id>>,
                       in2: seq<seq<Id>>, out2: seq<seq<Id>>, u: Id, targets: seq<Id>, t: Id)
    requires AddedToAll(in0, out0, in1, out1, u, targets)
    requires t < |in1| && u < |in1|
    requires in2 == if u in in1[t] then in1 else in1[t := in1[t] + [u]]
    requires out2 ==
      if u in in1[t] || t in out1[u] then out1 else out1[u := out1[u] + [t]]
    ensures AddedToAll(in0, out0, in2, out2, u, targets + [t])
  {
    var T := targets + [t];
    forall k: Id | 0 <= k < |T| && T[k] < |in2| ensures u in in2[T[k]] {
      if k < |targets| {
        assert T[k] == targets[k];
      }
    }
    forall v: Id, w: Id | 0 <= v < |in0| && w in in2[v] ensures w in in0[v] || w == u {
      assert w in in1[v] || w == u;
    }
  }

  // The loop of `removeFromGraph`, after the predecessors in `done` were
  // processed, relates the lists `in2`/`out2` to the incoming lists `in1`
  // left by its first loop and to the original outgoing lists `out0`.

  /** Every processed predecessor is incoming to every successor. */
  ghost predicate LinkedTo(in2: seq<seq<Id>>, done: seq<Id>, outgoing: seq<Id>) {
    forall k: Id, m: Id :: 0 <= k < |done| && 0 <= m < |outgoing| && outgoing[m] < |in2| ==> done[k] in in2[outgoing[m]]
  }

  /** No incoming entry was lost. */
  ghost predicate GrownFrom(in1: seq<seq<Id>>, in2: seq<seq<Id>>) {
    |in2| == |in1| && forall v: Id, w: Id :: 0 <= v < |in1| && w in in1[v] ==> w in in2[v]
  }

  /** The only incoming entries added are processed predecessors, on successors. */
  ghost predicate AddsOnly(lists1: seq<seq<Id>>, lists2: seq<seq<Id>>, sources: seq<Id>, targets: seq<Id>) {
    forall v: Id, w: Id {:trigger w in lists2[v]} :: 0 <= v < |lists1| && v < |lists2| && w in lists2[v] ==> w in lists1[v] || (w in sources && v in targets)
  }

  /** Every outgoing entry other than `x` was kept. */
  ghost predicate KeepsAllBut(out0: seq<seq<Id>>, out2: seq<seq<Id>>, x: Id) {
    |out2| == |out0| && forall w: Id, v: Id :: 0 <= w < |out0| && v in out0[w] && v != x ==> v in out2[w]
  }

  lemma LinkedToStep(in2: seq<seq<Id>>, out3: seq<seq<Id>>, in4: seq<seq<Id>>, out4: seq<seq<Id>>,
                     done: seq<Id>, outgoing: seq<Id>, p: Id)
    requires LinkedTo(in2, done, outgoing) && AddedToAll(in2, out3, in4, out4, p, outgoing)
    ensures LinkedTo(in4, done + [p], outgoing)
  {
    var D := done + [p];
    forall k: Id, m: Id | 0 <= k < |D| && 0 <= m < |outgoing| && outgoing[m] < |in4| ensures D[k] in in4[outgoing[m]] {
      if k < |done| {
        assert done[k] in in2[outgoing[m]];
      }
    }
  }

  lemma GrownFromStep(in1: seq<seq<Id>>, in2: seq<seq<Id>>, out3: seq<seq<Id>>, in4: seq<seq<Id>>,
                      out4: seq<seq<Id>>, p: Id, outgoing: seq<Id>)
    requires GrownFrom(in1, in2) && AddedToAll(in2, out3, in4, out4, p, outgoing)
    ensures GrownFrom(in1, in4)
  {
  }

  lemma InAddsOnlyStep(in1: seq<seq<Id>>, in2: seq<seq<Id>>, out3: seq<seq<Id>>, in4: seq<seq<Id>>,
                       out4: seq<seq<Id>>, done: seq<Id>, outgoing: seq<Id>, p: Id)
    requires |in2| == |in1| && AddsOnly(in1, in2, done, outgoing) && AddedToAll(in2, out3, in4, out4, p, outgoing)
    ensures AddsOnly(in1, in4, done + [p], outgoing)
  {
    var D := done + [p];
    forall v: Id, w: Id | 0 <= v < |in1| && v < |in4| && w in in4[v] ensures w in in1[v] || (w in D && v in outgoing) {
      if v !in outgoing {
        assert in4[v] == in2[v];
        assert w in in2[v] && v < |in2|;
        assert w in in1[v];
      } else if w != p {
        assert w in in2[v] && v < |in2|;
        assert w in in1[v] || w in done;
      } else {
        assert w in D;
      }
    }
  }

  lemma OutKeepsStep(out0: seq<seq<Id>>, out2: seq<seq<Id>>, out3: seq<seq<Id>>, in2: seq<seq<Id>>,
                     in4: seq<seq<Id>>, out4: seq<seq<Id>>, x: Id, p: Id, outgoing: seq<Id>)
    requires KeepsAllBut(out0, out2, x) && p < |out2|
    requires out3 == out2[p := RemoveFirst(out2[p], x)]
    requires AddedToAll(in2, out3, in4, out4, p, outgoing)
    ensures KeepsAllBut(out0, out4, x)
  {
    forall w: Id, v: Id | 0 <= w < |out0| && v in out0[w] && v != x ensures v in out4[w] {
      assert v in out2[w];
      if w == p {
        RemoveFirstCount(out2[p], x, v);
      }
      assert v in out3[w];
    }
  }

  lemma OutAddsOnlyStep(out0: seq<seq<Id>>, out2: seq<seq<Id>>, out3: seq<seq<Id>>, in2: seq<seq<Id>>,
                        in4: seq<seq<Id>>, out4: seq<seq<Id>>, x: Id, done: seq<Id>, outgoing: seq<Id>, p: Id)
    requires |out2| == |out0| && AddsOnly(out0, out2, outgoing, done) && p < |out2|
    requires out3 == out2[p := RemoveFirst(out2[p], x)]
    requires AddedToAll(in2, out3, in4, out4, p, outgoing)
    ensures AddsOnly(out0, out4, outgoing, done + [p])
  {
    var D := done + [p];
    forall w: Id, v: Id | 0 <= w < |out0| && w < |out4| && v in out4[w] ensures v in out0[w] || (v in outgoing && w in D) {
      if w != p {
        assert out4[w] == out3[w] == out2[w];
        assert v in out2[w] && w < |out2|;
        assert v in out0[w] || (v in outgoing && w in done);
      } else if v !in outgoing {
        assert v in out3[p];
        assert v in out2[p] && w < |out2|;
        assert v in out0[w] || (v in outgoing && w in done);
      } else {
        assert w in D;
      }
    }
  }

  /** None of the predecessors in `done` lists `x` as outgoing any more. */
  ghost predicate OutFreeOf(out: seq<seq<Id>>, x: Id, done: seq<Id>) {
    forall k: Id :: 0 <= k < |done| && done[k] < |out| ==> x !in out[done[k]]
  }

  lemma OutFreeOfStep(in2: seq<seq<Id>>, out2: seq<seq<Id>>, out3: seq<seq<Id>>, in4: seq<seq<Id>>,
                      out4: seq<seq<Id>>, x: Id, done: seq<Id>, outgoing: seq<Id>, p: Id)
    requires OutFreeOf(out2, x, done) && p < |out2| && NoDup(out2[p]) && x !in outgoing
    requires out3 == out2[p := RemoveFirst(out2[p], x)]
    requires AddedToAll(in2, out3, in4, out4, p, outgoing)
    ensures OutFreeOf(out4, x, done + [p])
  {
    RemoveFirstNoDup(out2[p], x);
    var D := done + [p];
    forall k: Id | 0 <= k < |D| && D[k] < |out4| ensures x !in out4[D[k]] {
      if D[k] != p {
        assert out4[D[k]] == out3[D[k]] == out2[D[k]];
      }
    }
  }

  /** The incoming lists `in1` left by the first loop of `removeFromGraph`. */
  /** The invariant of the loop of `removeFromGraph` after the predecessors
      in `done` were processed; `wf` says whether the graph was well-formed. */
  ghost predicate RewiredSoFar(in1: seq<seq<Id>>, out0: seq<seq<Id>>, in2: seq<seq<Id>>, out2: seq<seq<Id>>,
                               done: seq<Id>, outgoing: seq<Id>, x: Id, wf: bool) {
    LinkedTo(in2, done, outgoing) && GrownFrom(in1, in2) && AddsOnly(in1, in2, done, outgoing) &&
    KeepsAllBut(out0, out2, x) && AddsOnly(out0, out2, outgoing, done) && (wf ==> OutFreeOf(out2, x, done))
  }

  lemma RewireStep(in1: seq<seq<Id>>, out0: seq<seq<Id>>, in2: seq<seq<Id>>, out2: seq<seq<Id>>,
                   in4: seq<seq<Id>>, out4: seq<seq<Id>>, done: seq<Id>, outgoing: seq<Id>, x: Id, p: Id, wf: bool)
    requires RewiredSoFar(in1, out0, in2, out2, done, outgoing, x, wf) && p < |out2|
    requires AddedToAll(in2, out2[p := RemoveFirst(out2[p], x)], in4, out4, p, outgoing)
    requires wf ==> NoDup(out2[p]) && x !in outgoing
    ensures RewiredSoFar(in1, out0, in4, out4, done + [p], outgoing, x, wf)
  {
    var out3 := out2[p := RemoveFirst(out2[p], x)];
    LinkedToStep(in2, out3, in4, out4, done, outgoing, p);
    GrownFromStep(in1, in2, out3, in4, out4, p, outgoing);
    InAddsOnlyStep(in1, in2, out3, in4, out4, done, outgoing, p);
    OutKeepsStep(out0, out2, out3, in2, in4, out4, x, p, outgoing);
    OutAddsOnlyStep(out0, out2, out3, in2, in4, out4, x, done, outgoing, p);
    if wf {
      OutFreeOfStep(in2, out2, out3, in4, out4, x, done, outgoing, p);
    }
  }

  ghost predicate FirstLoopDone(in0: seq<seq<Id>>, out0: seq<seq<Id>>, in1: seq<seq<Id>>, x: Id)
    requires x < |out0|
  {
    |in1| == |in0| && forall v: Id :: 0 <= v < |in1| ==> in1[v] == RemoveFirstTimes(in0[v], x, multiset(out0[x])[v])
  }

  lemma RemovedJoins(x: Id, in0: seq<seq<Id>>, out0: seq<seq<Id>>, in2: seq<seq<Id>>, in3: seq<seq<Id>>)
    requires x < |in0| == |out0| && LinkedTo(in2, in0[x], out0[x]) && x < |in2| && in3 == in2[x := []]
    ensures forall p: Id, s: Id :: p in in0[x] && s in out0[x] && s != x && s < |in3| ==> p in in3[s]
  {
    forall p: Id, s: Id | p in in0[x] && s in out0[x] && s != x && s < |in3| ensures p in in3[s] {
      var k :| 0 <= k < |in0[x]| && in0[x][k] == p;
      var m :| 0 <= m < |out0[x]| && out0[x][m] == s;
      assert p in in2[s];
    }
  }

  lemma RemovedKeeps(x: Id, in0: seq<seq<Id>>, out0: seq<seq<Id>>, in1: seq<seq<Id>>, in2: seq<seq<Id>>,
                     in3: seq<seq<Id>>)
    requires x < |in0| == |out0| && FirstLoopDone(in0, out0, in1, x) && GrownFrom(in1, in2) && in3 == in2[x := []]
    ensures forall v: Id, w: Id :: 0 <= v < |in3| && v != x && w != x && w in in0[v] ==> w in in3[v]
  {
    forall v: Id, w: Id | 0 <= v < |in3| && v != x && w != x && w in in0[v] ensures w in in3[v] {
      RemoveFirstTimesKeeps(in0[v], x, multiset(out0[x])[v], w);
      assert w in in1[v];
    }
  }

  lemma RemovedAddsOnly(x: Id, in0: seq<seq<Id>>, out0: seq<seq<Id>>, in1: seq<seq<Id>>, in2: seq<seq<Id>>,
                        in3: seq<seq<Id>>)
    requires x < |in0| == |out0| && FirstLoopDone(in0, out0, in1, x) && |in2| == |in1|
    requires AddsOnly(in1, in2, in0[x], out0[x]) && in3 == in2[x := []]
    ensures forall v: Id, w: Id :: 0 <= v < |in3| && w in in3[v] ==> w in in0[v] || (w in in0[x] && v in out0[x])
  {
    forall v: Id, w: Id | 0 <= v < |in3| && w in in3[v] ensures w in in0[v] || (w in in0[x] && v in out0[x]) {
      assert v != x && in3[v] == in2[v];
      if w in in1[v] {
        RemoveFirstTimesSub(in0[v], x, multiset(out0[x])[v], w);
      } else {
        assert w in in0[x] && v in out0[x];
      }
    }
  }

  lemma RemovedOutLinks(x: Id, in0: seq<seq<Id>>, out0: seq<seq<Id>>, out2: seq<seq<Id>>, out3: seq<seq<Id>>)
    requires x < |out0| == |in0| && KeepsAllBut(out0, out2, x) && AddsOnly(out0, out2, out0[x], in0[x])
    requires out3 == out2[x := []]
    ensures forall w: Id, v: Id :: 0 <= w < |out3| && v != x && w != x && v in out0[w] ==> v in out3[w]
    ensures forall w: Id, v: Id :: 0 <= w < |out3| && v in out3[w] ==> v in out0[w] || (w in in0[x] && v in out0[x])
  {
    forall w: Id, v: Id | 0 <= w < |out3| && v in out3[w] ensures v in out0[w] || (w in in0[x] && v in out0[x]) {
      assert out3[w] == out2[w];
    }
  }

  lemma RemovedUnreferenced(x: Id, in0: seq<seq<Id>>, out0: seq<seq<Id>>, in1: seq<seq<Id>>,
                            in2: seq<seq<Id>>, out2: seq<seq<Id>>, in3: seq<seq<Id>>, out3: seq<seq<Id>>)
    requires x < |in0| && WasWellFormed(in0, out0) && x !in in0[x] && FirstLoopDone(in0, out0, in1, x)
    requires |in2| == |in1| && |out2| == |in1|
    requires AddsOnly(in1, in2, in0[x], out0[x]) && AddsOnly(out0, out2, out0[x], in0[x]) && OutFreeOf(out2, x, in0[x])
    requires in3 == in2[x := []] && out3 == out2[x := []]
    ensures forall v: Id :: 0 <= v < |in3| ==> x !in in3[v] && x !in out3[v]
  {
    forall v: Id | 0 <= v < |in3| && v != x ensures x !in in3[v] && x !in out3[v] {
      StripListFacts(in0[v], x, multiset(out0[x])[v], out0[x], v);
      assert x !in in1[v];
      assert x !in out0[x];
      if x in out0[v] {
        assert v in in0[x];
        var k :| 0 <= k < |in0[x]| && in0[x][k] == v;
        assert x !in out2[in0[x][k]];
      }
    }
  }

  /** What `removeFromGraph` on `x` promises of the lists `in3`/`out3` it
      leaves, against the lists `in0`/`out0` it started from: every
      predecessor of `x` becomes a predecessor of every other successor of
      `x`; no other edge between two nodes other than `x` is lost; and the
      only edges gained are those from a predecessor to a successor of `x`. */
  ghost predicate RemovedFrom(x: Id, in0: seq<seq<Id>>, out0: seq<seq<Id>>, in3: seq<seq<Id>>, out3: seq<seq<Id>>)
    requires x < |in0| == |out0|
  {
    |in3| == |in0| && |out3| == |in0| &&
    (forall p: Id, s: Id :: p in in0[x] && s in out0[x] && s != x && s < |in3| ==> p in in3[s]) &&
    (forall v: Id, w: Id :: 0 <= v < |in3| && v != x && w != x && w in in0[v] ==> w in in3[v]) &&
    (forall v: Id, w: Id :: 0 <= v < |in3| && w in in3[v] ==> w in in0[v] || (w in in0[x] && v in out0[x])) &&
    (forall w: Id, v: Id :: 0 <= w < |out3| && v != x && w != x && v in out0[w] ==> v in out3[w]) &&
    (forall w: Id, v: Id :: 0 <= w < |out3| && v in out3[w] ==> v in out0[w] || (w in in0[x] && v in out0[x]))
  }

  /** No list mentions `x`. */
  ghost predicate Unreferenced(x: Id, in3: seq<seq<Id>>, out3: seq<seq<Id>>)
    requires |in3| == |out3|
  {
    forall v: Id :: 0 <= v < |in3| ==> x !in in3[v] && x !in out3[v]
  }

  /** After the first loop of `removeFromGraph` on a well-formed graph, the
      incoming lists hold no duplicates and `x` is nowhere outgoing. */
  lemma FirstLoopSimple(x: Id, in0: seq<seq<Id>>, out0: seq<seq<Id>>, in1: seq<seq<Id>>)
    requires x < |in0| && WasWellFormed(in0, out0) && x !in in0[x]
    requires |in1| == |in0| && forall v :: 0 <= v < |in1| ==> in1[v] == RemoveFirstTimes(in0[v], x, multiset(out0[x])[v])
    ensures forall v :: 0 <= v < |in1| ==> NoDup(in1[v])
    ensures x !in out0[x]
  {
    forall v | 0 <= v < |in1| ensures NoDup(in1[v]) {
      StripListFacts(in0[v], x, multiset(out0[x])[v], out0[x], v);
    }
  }

  /** The facts `removeFromGraph` guarantees, gathered from its two loops. */
  lemma RemovedAll(x: Id, in0: seq<seq<Id>>, out0: seq<seq<Id>>, in1: seq<seq<Id>>,
                   in2: seq<seq<Id>>, out2: seq<seq<Id>>, in3: seq<seq<Id>>, out3: seq<seq<Id>>, wf: bool)
    requires x < |in0| == |out0| && FirstLoopDone(in0, out0, in1, x) && |in2| == |in0| && |out2| == |in0|
    requires LinkedTo(in2, in0[x], out0[x])
    requires GrownFrom(in1, in2) && AddsOnly(in1, in2, in0[x], out0[x])
    requires KeepsAllBut(out0, out2, x) && AddsOnly(out0, out2, out0[x], in0[x])
    requires wf ==> WasWellFormed(in0, out0) && x !in in0[x] && OutFreeOf(out2, x, in0[x])
    requires in3 == in2[x := []] && out3 == out2[x := []]
    ensures RemovedFrom(x, in0, out0, in3, out3)
    ensures wf ==> Unreferenced(x, in3, out3)
  {
    assert FirstLoopDone(in0, out0, in1, x);
    RemovedJoins(x, in0, out0, in2, in3);
    RemovedKeeps(x, in0, out0, in1, in2, in3);
    RemovedAddsOnly(x, in0, out0, in1, in2, in3);
    RemovedOutLinks(x, in0, out0, out2, out3);
    if wf {
      RemovedUnreferenced(x, in0, out0, in1, in2, out2, in3, out3);
    }
  }

  /** Every entry of `lists0` other than `x`, in a list other than `x`'s, is
      still in `lists1`. */
  ghost predicate KeepsOthers(lists0: seq<seq<Id>>, lists1: seq<seq<Id>>, x: Id) {
    |lists1| == |lists0| &&
    forall v: Id, w: Id :: 0 <= v < |lists1| && v != x && w != x && w in lists0[v] ==> w in lists1[v]
  }

  /** Every list of `lists1` is contained in the same list of `lists0`. */
  ghost predicate Shrunk(lists0: seq<seq<Id>>, lists1: seq<seq<Id>>) {
    |lists1| == |lists0| &&
    forall v: Id, w: Id {:trigger w in lists1[v]} :: 0 <= v < |lists1| && w in lists1[v] ==> w in lists0[v]
  }

  /** `Replaced` applied `k` times. */
  function ReplacedTimes(s: seq<Id>, a: Id, b: Id, k: nat): seq<Id> {
    if k == 0 then s else Replaced(ReplacedTimes(s, a, b, k - 1), a, b)
  }

  /** Overwriting `a` never introduces `a` when `b` differs from it. */
  lemma {:induction false} ReplacedTimesAbsent(s: seq<Id>, a: Id, b: Id, k: nat)
    requires a !in s
    ensures ReplacedTimes(s, a, b, k) == s
  {
    if k > 0 {
      ReplacedTimesAbsent(s, a, b, k - 1);
    }
  }

  /** In a list without repeats, overwriting the first `a` leaves no `a`, and brings `b` in
      exactly when `a` was there. */
  lemma ReplacedOnce(s: seq<Id>, a: Id, b: Id)
    requires NoDup(s) && a != b
    ensures a !in Replaced(s, a, b)
    ensures a in s ==> b in Replaced(s, a, b)
  {
    if a in s {
      var i := FirstIndex(s, a);
      var r := s[i := b];
      forall j | 0 <= j < |r| ensures r[j] != a {
        if j != i {
          assert s[j] != s[i];
        }
      }
      assert r[i] == b;
    }
  }

  /** The incoming lists after `o`'s first incoming `x` was overwritten by
      `last` for each `o` of `outs` in turn. */
  function Redirected(in0: seq<seq<Id>>, x: Id, last: Id, outs: seq<Id>): (r: seq<seq<Id>>)
    requires BoundedAt(outs, |in0|)
    ensures |r| == |in0|
  {
    if outs == [] then in0
    else
      var r := Redirected(in0, x, last, outs[..|outs| - 1]);
      var o := outs[|outs| - 1];
      r[o := Replaced(r[o], x, last)]
  }

  /** Each list is overwritten once per occurrence of its node in `outs`. */
  lemma {:induction false} RedirectedAt(in0: seq<seq<Id>>, x: Id, last: Id, outs: seq<Id>, v: Id)
    requires BoundedAt(outs, |in0|) && v < |in0|
    ensures Redirected(in0, x, last, outs)[v] == ReplacedTimes(in0[v], x, last, multiset(outs)[v])
  {
    if outs != [] {
      var front := outs[..|outs| - 1];
      assert outs == front + [outs[|outs| - 1]];
      RedirectedAt(in0, x, last, front, v);
    }
  }

  class NodeTable {
    var edgeIn: seq<seq<Id>>
    var edgeOut: seq<seq<Id>>

    ghost predicate Valid()
      reads this
    {
      |edgeIn| == |edgeOut| &&
      forall v :: 0 <= v < |edgeIn| ==> Bounded(edgeIn[v], |edgeIn|) && Bounded(edgeOut[v], |edgeIn|)
    }

    function Size(): nat
      reads this
    {
      |edgeIn|
    }

    predicate Has(v: Id)
      reads this
    {
      v < |edgeIn| && v < |edgeOut|
    }

    /** `isLonely`: the node has neither incoming nor outgoing edges. */
    predicate IsLonely(v: Id)
      reads this
      requires Has(v)
    {
      edgeIn[v] == [] && edgeOut[v] == []
    }

    /** Every entry has its mirror entry, except possibly the entries that
        involve node `x` (pass a value `>= Size()` to exclude nothing). */
    ghost predicate MirroredAway(x: Id)
      reads this
      requires Valid()
    {
      forall u, v :: 0 <= u < |edgeIn| && 0 <= v < |edgeIn| && u != x && v != x ==>
        (u in edgeIn[v] <==> v in edgeOut[u])
    }

    ghost predicate Mirrored()
      reads this
      requires Valid()
    {
      MirroredAway(|edgeIn|)
    }

    /** Every outgoing entry is mirrored by an incoming entry. */
    ghost predicate OutMirrored()
      reads this
      requires Valid()
    {
      forall u, v :: 0 <= u < |edgeIn| && 0 <= v < |edgeIn| && v in edgeOut[u] ==> u in edgeIn[v]
    }

    /** No list holds a node twice. */
    ghost predicate Simple()
      reads this
      requires Valid()
    {
      forall v :: 0 <= v < |edgeIn| ==> NoDup(edgeIn[v]) && NoDup(edgeOut[v])
    }

    /** The shape that linking through `addIncomingEdge` maintains. */
    ghost predicate WellFormed()
      reads this
    {
      Valid() && Mirrored() && Simple()
    }

    constructor (n: nat)
      ensures Valid() && Size() == n
      ensures forall v :: 0 <= v < n ==> IsLonely(v)
      ensures WellFormed()
    {
      edgeIn := seq(n, _ => []);
      edgeOut := seq(n, _ => []);
    }

    /** A new node with no edges. */
    method AddNode() returns (v: Id)
      requires Valid()
      modifies this
      ensures Valid() && v == old(Size()) && Size() == v + 1
      ensures edgeIn == old(edgeIn) + [[]] && edgeOut == old(edgeOut) + [[]]
      ensures old(WellFormed()) ==> WellFormed()
      ensures old(OutMirrored()) ==> OutMirrored()
    {
      v := |edgeIn|;
      edgeIn := edgeIn + [[]];
      edgeOut := edgeOut + [[]];
      assert forall w :: 0 <= w < v ==> edgeIn[w] == old(edgeIn[w]) && edgeOut[w] == old(edgeOut[w]);
    }

    /** `v.addIncomingEdge(from: u)`: nothing happens when `u` already is an
        incoming node of `v`; otherwise `u` is appended to `v`'s incoming list
        and `v` to `u`'s outgoing list unless it is already there. */
    method AddIncomingEdge(v: Id, u: Id)
      requires Valid() && Has(v) && Has(u)
      modifies this
      ensures Valid() && Size() == old(Size())
      ensures edgeIn == if u in old(edgeIn[v]) then old(edgeIn) else old(edgeIn)[v := old(edgeIn[v]) + [u]]
      ensures edgeOut ==
        if u in old(edgeIn[v]) || v in old(edgeOut[u]) then old(edgeOut)
        else old(edgeOut)[u := old(edgeOut[u]) + [v]]
      ensures u in edgeIn[v]
      ensures u !in old(edgeIn[v]) && multiset(old(edgeOut[u]))[v] <= 1 ==> multiset(edgeOut[u])[v] == 1
      ensures old(Simple()) ==> Simple()
      ensures old(OutMirrored()) ==> OutMirrored()
      ensures forall x :: old(MirroredAway(x)) && u != x && v != x ==> MirroredAway(x)
    {
      ghost var in0, out0 := edgeIn, edgeOut;
      assert forall x :: MirroredAway(x) ==> WasMirroredAway(in0, out0, x);
      if u !in edgeIn[v] {
        edgeIn := edgeIn[v := edgeIn[v] + [u]];
        if v !in edgeOut[u] {
          edgeOut := edgeOut[u := edgeOut[u] + [v]];
        }
      }
      AddedEdgeKeeps(in0, out0, u, v);
    }

    /** What adding the edge `u -> v` keeps, from the lists `in0`/`out0` before. */
    lemma AddedEdgeKeeps(in0: seq<seq<Id>>, out0: seq<seq<Id>>, u: Id, v: Id)
      requires Valid() && |in0| == |out0| == Size() && Has(u) && Has(v)
      requires edgeIn == if u in in0[v] then in0 else in0[v := in0[v] + [u]]
      requires edgeOut == if u in in0[v] || v in out0[u] then out0 else out0[u := out0[u] + [v]]
      ensures (forall w :: 0 <= w < |in0| ==> NoDup(in0[w]) && NoDup(out0[w])) ==> Simple()
      ensures WasOutMirrored(in0, out0) ==> OutMirrored()
      ensures forall x :: WasMirroredAway(in0, out0, x) && u != x && v != x ==> MirroredAway(x)
    {
      forall x | WasMirroredAway(in0, out0, x) && u != x && v != x ensures MirroredAway(x) {
        if u !in in0[v] {
          assert v !in out0[u];
        }
      }
      if forall w :: 0 <= w < |in0| ==> NoDup(in0[w]) && NoDup(out0[w]) {
        if u !in in0[v] {
          NoDupAppend(in0[v], u);
          if v !in out0[u] {
            NoDupAppend(out0[u], v);
          }
        }
      }
    }

    /** `v.deleteIncomingEdge(node: u)`: removes the first `u` from `v`'s
        incoming list, if any; the outgoing lists are not touched. */
    method DeleteIncomingEdge(v: Id, u: Id)
      requires Valid() && Has(v)
      modifies this
      ensures Valid() && Size() == old(Size())
      ensures edgeIn == old(edgeIn)[v := RemoveFirst(old(edgeIn[v]), u)]
      ensures edgeOut == old(edgeOut)
      ensures u !in old(edgeIn[v]) ==> edgeIn == old(edgeIn)
    {
      edgeIn := edgeIn[v := RemoveFirst(edgeIn[v], u)];
    }

    /** `v.deleteOutgoingEdge(node: u)`: removes the first `u` from `v`'s
        outgoing list, if any; the incoming lists are not touched. */
    method DeleteOutgoingEdge(v: Id, u: Id)
      requires Valid() && Has(v)
      modifies this
      ensures Valid() && Size() == old(Size())
      ensures edgeOut == old(edgeOut)[v := RemoveFirst(old(edgeOut[v]), u)]
      ensures edgeIn == old(edgeIn)
      ensures u !in old(edgeOut[v]) ==> edgeOut == old(edgeOut)
    {
      edgeOut := edgeOut[v := RemoveFirst(edgeOut[v], u)];
    }

    /** `v.replace(incomingEdge: o, with: n)`: the first `o` in `v`'s incoming
        list is overwritten by `n` at the same index; then, if `n`'s outgoing
        list holds `o`, its first `o` is overwritten by `v`. Nothing changes
        when `o` is not an incoming node of `v`. */
    method Replace(v: Id, o: Id, n: Id)
      requires Valid() && Has(v) && Has(n)
      modifies this
      ensures Valid() && Size() == old(Size())
      ensures edgeIn == old(edgeIn)[v := Replaced(old(edgeIn[v]), o, n)]
      ensures edgeOut ==
        if o in old(edgeIn[v]) then old(edgeOut)[n := Replaced(old(edgeOut[n]), o, v)]
        else old(edgeOut)
      ensures |edgeIn[v]| == old(|edgeIn[v]|)
      ensures forall k :: 0 <= k < |edgeIn[v]| && old(edgeIn[v][k]) != o ==> edgeIn[v][k] == old(edgeIn[v][k])
    {
      if o in edgeIn[v] {
        var idx := FirstIndex(edgeIn[v], o);
        var row: seq<Id> := edgeIn[v][idx := n];
        assert forall y :: y in row ==> y in edgeIn[v] || y == n;
        edgeIn := edgeIn[v := row];
        if o in edgeOut[n] {
          var outIdx := FirstIndex(edgeOut[n], o);
          var row': seq<Id> := edgeOut[n][outIdx := v];
          assert forall y :: y in row' ==> y in edgeOut[n] || y == v;
          edgeOut := edgeOut[n := row'];
        }
      }
    }

    /** `for t in targets { t.addIncomingEdge(from: u) }`, the inner loop of
        `removeFromGraph`. */
    method AddIncomingEdgeToAll(targets: seq<Id>, u: Id)
      requires Valid() && Has(u) && BoundedAt(targets, Size())
      modifies this
      ensures Valid() && Size() == old(Size())
      ensures AddedToAll(old(edgeIn), old(edgeOut), edgeIn, edgeOut, u, targets)
      ensures old(Simple()) ==> Simple()
      ensures forall y :: old(MirroredAway(y)) && u != y && y !in targets ==> MirroredAway(y)
    {
      var i := 0;
      while i < |targets|
        invariant 0 <= i <= |targets|
        invariant Valid() && Size() == old(Size())
        invariant AddedToAll(old(edgeIn), old(edgeOut), edgeIn, edgeOut, u, targets[..i])
        invariant old(Simple()) ==> Simple()
        invariant forall y :: old(MirroredAway(y)) && u != y && y !in targets ==> MirroredAway(y)
      {
        ghost var in1, out1 := edgeIn, edgeOut;
        label Before:
        AddIncomingEdge(targets[i], u);
        forall y | old(MirroredAway(y)) && u != y && y !in targets
          ensures MirroredAway(y)
        {
          assert old@Before(MirroredAway(y)) && y != targets[i];
        }
        AddedToAllStep(old(edgeIn), old(edgeOut), in1, out1, edgeIn, edgeOut, u, targets[..i], targets[i]);
        assert targets[..i + 1] == targets[..i] + [targets[i]];
        i := i + 1;
      }
      assert targets[..i] == targets;
    }

    /** `removeFromGraph()`: `x` is cut out and each of its predecessors is
        linked, through `addIncomingEdge`, to each of its successors. */
    method RemoveFromGraph(x: Id)
      requires Valid() && Has(x)
      modifies this
      ensures Valid() && Size() == old(Size())
      ensures IsLonely(x)
      ensures RemovedFrom(x, old(edgeIn), old(edgeOut), edgeIn, edgeOut)
      ensures old(WellFormed()) && x !in old(edgeIn[x]) ==> Unreferenced(x, edgeIn, edgeOut) && WellFormed()
    {
      ghost var in0, out0 := edgeIn, edgeOut;
      ghost var wf := WellFormed() && x !in edgeIn[x];
      var outgoing, incoming := edgeOut[x], edgeIn[x];
      BoundedIsBoundedAt(outgoing, Size());
      BoundedIsBoundedAt(incoming, Size());
      DeleteFromIncomingLists(outgoing, x);
      ghost var in1 := edgeIn;
      assert FirstLoopDone(in0, out0, in1, x);
      if wf {
        FirstLoopSimple(x, in0, out0, in1);
        FirstLoopMirroredAway(x, in0, out0, in1);
        assert MirroredAway(x) && Simple();
      }
      RewireAll(incoming, outgoing, x);
      ghost var in2, out2 := edgeIn, edgeOut;
      Clear(x);
      RemovedAll(x, in0, out0, in1, in2, out2, edgeIn, edgeOut, wf);
      if wf {
        assert WasMirroredAway(in2, out2, x);
        ClearedMirrored(x, in2, out2, edgeIn, edgeOut);
      }
    }

    /** `edgeOut = []; edgeIn = []` on node `x`. */
    method Clear(x: Id)
      requires Valid() && Has(x)
      modifies this
      ensures Valid() && Size() == old(Size()) && IsLonely(x)
      ensures edgeIn == old(edgeIn)[x := []] && edgeOut == old(edgeOut)[x := []]
    {
      edgeOut := edgeOut[x := []];
      edgeIn := edgeIn[x := []];
    }

    /** The second loop of `removeFromGraph`: each predecessor in `incoming`
        drops its first outgoing `x` and is linked to every node of `outgoing`. */
    method RewireAll(incoming: seq<Id>, outgoing: seq<Id>, x: Id)
      requires Valid() && BoundedAt(incoming, Size()) && BoundedAt(outgoing, Size())
      modifies this
      ensures Valid() && Size() == old(Size())
      ensures RewiredSoFar(old(edgeIn), old(edgeOut), edgeIn, edgeOut, incoming, outgoing, x, old(Simple()) && x !in outgoing)
      ensures old(Simple()) && x !in outgoing ==> Simple()
      ensures old(MirroredAway(x)) && x !in incoming && x !in outgoing ==> MirroredAway(x)
    {
      ghost var in1, out0 := edgeIn, edgeOut;
      ghost var wf := Simple() && x !in outgoing;
      assert incoming[..0] == [];
      var j := 0;
      while j < |incoming|
        invariant 0 <= j <= |incoming|
        invariant Valid() && Size() == old(Size())
        invariant RewiredSoFar(in1, out0, edgeIn, edgeOut, incoming[..j], outgoing, x, wf)
        invariant wf ==> Simple()
        invariant old(MirroredAway(x)) && x !in incoming && x !in outgoing ==> MirroredAway(x)
      {
        var p := incoming[j];
        ghost var in2, out2 := edgeIn, edgeOut;
        ghost var done := incoming[..j];
        RewireOne(p, x, outgoing);
        RewireStep(in1, out0, in2, out2, edgeIn, edgeOut, done, outgoing, x, p, wf);
        assert incoming[..j + 1] == done + [p];
        j := j + 1;
      }
      assert incoming[..j] == incoming;
    }

    /** One pass of that loop: `p.deleteOutgoingEdge(node: x)`, then
        `o.addIncomingEdge(from: p)` for every `o` in `outgoing`. */
    method RewireOne(p: Id, x: Id, outgoing: seq<Id>)
      requires Valid() && Has(p) && BoundedAt(outgoing, Size())
      modifies this
      ensures Valid() && Size() == old(Size())
      ensures AddedToAll(old(edgeIn), old(edgeOut)[p := RemoveFirst(old(edgeOut[p]), x)], edgeIn, edgeOut, p, outgoing)
      ensures old(Simple()) ==> Simple()
      ensures old(MirroredAway(x)) && p != x && x !in outgoing ==> MirroredAway(x)
    {
      ghost var ma := MirroredAway(x) && p != x;
      DeleteOutgoingEdge(p, x);
      if ma {
        DeletedOutgoingKeeps(x, p, old(edgeIn), old(edgeOut), edgeIn, edgeOut);
      }
      if old(Simple()) {
        RemoveFirstNoDup(old(edgeOut[p]), x);
        assert forall v :: 0 <= v < Size() && v != p ==> edgeOut[v] == old(edgeOut[v]);
      }
      AddIncomingEdgeToAll(outgoing, p);
    }

    /** `strip()`: every outgoing node drops its first incoming `x`, every
        incoming node drops its first outgoing `x`, and `x`'s own lists are
        emptied; nothing is rewired. */
    method Strip(x: Id)
      requires Valid() && Has(x)
      modifies this
      ensures Valid() && Size() == old(Size())
      ensures StrippedFrom(x, old(edgeIn), old(edgeOut)) && IsLonely(x)
      ensures forall v :: 0 <= v < Size() && old(IsLonely(v)) ==> IsLonely(v)
      ensures Shrunk(old(edgeIn), edgeIn) && Shrunk(old(edgeOut), edgeOut)
      ensures KeepsOthers(old(edgeIn), edgeIn, x) && KeepsOthers(old(edgeOut), edgeOut, x)
      ensures old(WellFormed()) ==> WellFormed() && Unreferenced(x, edgeIn, edgeOut)
      ensures old(OutMirrored()) && old(Simple()) ==> OutMirrored()
    {
      ghost var in0, out0 := edgeIn, edgeOut;
      assert WellFormed() ==> WasWellFormed(in0, out0);
      assert OutMirrored() && Simple() ==> WasOutMirrored(in0, out0) && forall v :: 0 <= v < |in0| ==> NoDup(out0[v]);
      var outgoing, incoming := edgeOut[x], edgeIn[x];
      BoundedIsBoundedAt(outgoing, Size());
      BoundedIsBoundedAt(incoming, Size());
      DeleteFromIncomingLists(outgoing, x);
      DeleteFromOutgoingLists(incoming, x);
      Clear(x);
      assert StrippedFrom(x, in0, out0);
      StripFacts(x, in0, out0);
    }

    /** `strip(recursive: true)`: as `Strip`, but before `x`'s own lists are
        emptied every former neighbour is stripped recursively, incoming ones
        first. The recursion of the source has no bound and need not end when
        the lists are not mirrored; here it stops at depth `fuel`. */
    method StripRecursive(x: Id, fuel: nat)
      requires Valid() && Has(x)
      modifies this
      decreases fuel, 1
      ensures Valid() && Size() == old(Size())
      ensures IsLonely(x)
      ensures fuel > 0 ==> forall v :: (v in old(edgeIn[x]) || v in old(edgeOut[x])) && v < Size() ==> IsLonely(v)
      ensures forall v :: 0 <= v < Size() && old(IsLonely(v)) ==> IsLonely(v)
      ensures Shrunk(old(edgeIn), edgeIn) && Shrunk(old(edgeOut), edgeOut)
    {
      var outgoing, incoming := edgeOut[x], edgeIn[x];
      BoundedIsBoundedAt(outgoing, Size());
      BoundedIsBoundedAt(incoming, Size());
      Strip(x);
      if fuel > 0 {
        StripAll(incoming, fuel - 1);
        StripAll(outgoing, fuel - 1);
      }
      Clear(x);
    }

    /** `for node in nodes { node.strip(recursive: true) }`. */
    method StripAll(nodes: seq<Id>, fuel: nat)
      requires Valid() && BoundedAt(nodes, Size())
      modifies this
      decreases fuel, 2
      ensures Valid() && Size() == old(Size())
      ensures forall v :: v in nodes ==> IsLonely(v)
      ensures forall v :: 0 <= v < Size() && old(IsLonely(v)) ==> IsLonely(v)
      ensures Shrunk(old(edgeIn), edgeIn) && Shrunk(old(edgeOut), edgeOut)
    {
      var i := 0;
      while i < |nodes|
        invariant 0 <= i <= |nodes|
        invariant Valid() && Size() == old(Size())
        invariant forall k :: 0 <= k < i ==> IsLonely(nodes[k])
        invariant forall v :: 0 <= v < Size() && old(IsLonely(v)) ==> IsLonely(v)
        invariant Shrunk(old(edgeIn), edgeIn) && Shrunk(old(edgeOut), edgeOut)
      {
        StripRecursive(nodes[i], fuel);
        i := i + 1;
      }
    }

    /** `x.insert(outgoing: nodes)`: every former successor `o` of `x` gets
        its first incoming `x` overwritten by the last node of `nodes`
        (`replace`) and is dropped from `x`'s outgoing list; then the first
        node of `nodes` is linked after `x`. The chain `nodes` is expected to
        be linked already and not to contain `x`. */
    method Insert(x: Id, nodes: seq<Id>)
      requires Valid() && Has(x) && BoundedAt(nodes, Size()) && x !in nodes
      modifies this
      ensures Valid() && Size() == old(Size())
      ensures nodes == [] ==> edgeIn == old(edgeIn) && edgeOut == old(edgeOut)
      ensures nodes != [] ==> forall v :: 0 <= v < Size() && v != nodes[0] ==>
        edgeIn[v] == ReplacedTimes(old(edgeIn[v]), x, Last(nodes), multiset(old(edgeOut[x]))[v])
      ensures nodes != [] ==>
        var r := ReplacedTimes(old(edgeIn[nodes[0]]), x, Last(nodes), multiset(old(edgeOut[x]))[nodes[0]]);
        edgeIn[nodes[0]] == (if x in r then r else r + [x]) &&
        edgeOut[x] == (if x in r then [] else [nodes[0]])
      ensures nodes != [] ==> forall w :: 0 <= w < Size() && w != x && w != Last(nodes) ==> edgeOut[w] == old(edgeOut[w])
      ensures nodes != [] && x !in old(edgeOut[Last(nodes)]) ==> edgeOut[Last(nodes)] == old(edgeOut[Last(nodes)])
    {
      if |nodes| == 0 {
        return;
      }
      RedirectSuccessors(x, nodes[|nodes| - 1]);
      AddIncomingEdge(nodes[0], x);
    }

    /** The loop of `insert`: `o.replace(incomingEdge: x, with: last)` and
        `x.deleteOutgoingEdge(node: o)` for every successor `o` of `x`. */
    method RedirectSuccessors(x: Id, last: Id)
      requires Valid() && Has(x) && Has(last) && last != x
      modifies this
      ensures Valid() && Size() == old(Size())
      ensures edgeOut[x] == []
      ensures forall v :: 0 <= v < Size() ==>
        edgeIn[v] == ReplacedTimes(old(edgeIn[v]), x, last, multiset(old(edgeOut[x]))[v])
      ensures forall w :: 0 <= w < Size() && w != x && w != last ==> edgeOut[w] == old(edgeOut[w])
      ensures x !in old(edgeOut[last]) ==> edgeOut[last] == old(edgeOut[last])
    {
      var outs := edgeOut[x];
      BoundedIsBoundedAt(outs, Size());
      var i := 0;
      while i < |outs|
        invariant 0 <= i <= |outs|
        invariant Valid() && Size() == old(Size())
        invariant edgeOut[x] == outs[i..]
        invariant edgeIn == Redirected(old(edgeIn), x, last, outs[..i])
        invariant forall w :: 0 <= w < Size() && w != x && w != last ==> edgeOut[w] == old(edgeOut[w])
        invariant x !in old(edgeOut[last]) ==> edgeOut[last] == old(edgeOut[last])
      {
        var o := outs[i];
        RedirectOne(x, last, o);
        assert outs[i..] == [o] + outs[i + 1..];
        assert RemoveFirst(outs[i..], o) == outs[i + 1..] by {
          RemoveFirstAt(outs[i..], o);
        }
        assert outs[..i + 1][..i] == outs[..i];
        i := i + 1;
      }
      assert outs[..i] == outs;
      forall v | 0 <= v < Size()
        ensures edgeIn[v] == ReplacedTimes(old(edgeIn[v]), x, last, multiset(outs)[v])
      {
        RedirectedAt(old(edgeIn), x, last, outs, v);
      }
    }

    /** One pass of that loop, for the successor `o`. */
    method RedirectOne(x: Id, last: Id, o: Id)
      requires Valid() && Has(x) && Has(last) && Has(o) && last != x
      modifies this
      ensures Valid() && Size() == old(Size())
      ensures edgeIn == old(edgeIn)[o := Replaced(old(edgeIn[o]), x, last)]
      ensures edgeOut[x] == RemoveFirst(old(edgeOut[x]), o)
      ensures forall w :: 0 <= w < Size() && w != x && w != last ==> edgeOut[w] == old(edgeOut[w])
      ensures x !in old(edgeOut[last]) ==> edgeOut[last] == old(edgeOut[last])
    {
      Replace(o, x, last);
      DeleteOutgoingEdge(x, o);
    }

    /** The state `Strip(x)` leaves, in closed form. */
    ghost predicate StrippedFrom(x: Id, in0: seq<seq<Id>>, out0: seq<seq<Id>>)
      reads this
      requires Valid() && Has(x)
    {
      |in0| == |out0| == Size() && edgeIn[x] == [] && edgeOut[x] == [] &&
      (forall v {:trigger RemoveFirstTimes(in0[v], x, multiset(out0[x])[v])} :: 0 <= v < Size() && v != x ==>
         edgeIn[v] == RemoveFirstTimes(in0[v], x, multiset(out0[x])[v])) &&
      (forall v {:trigger RemoveFirstTimes(out0[v], x, multiset(in0[x])[v])} :: 0 <= v < Size() && v != x ==>
         edgeOut[v] == RemoveFirstTimes(out0[v], x, multiset(in0[x])[v]))
    }

    /** Everything `Strip` promises about the lists it leaves. */
    lemma StripFacts(x: Id, in0: seq<seq<Id>>, out0: seq<seq<Id>>)
      requires Valid() && Has(x) && StrippedFrom(x, in0, out0)
      ensures Shrunk(in0, edgeIn) && Shrunk(out0, edgeOut)
      ensures KeepsOthers(in0, edgeIn, x) && KeepsOthers(out0, edgeOut, x)
      ensures forall v :: 0 <= v < Size() && in0[v] == [] && out0[v] == [] ==> IsLonely(v)
      ensures WasWellFormed(in0, out0) ==> WellFormed() && Unreferenced(x, edgeIn, edgeOut)
      ensures WasOutMirrored(in0, out0) && (forall v :: 0 <= v < |in0| ==> NoDup(out0[v])) ==> OutMirrored()
    {
      StripKeeps(x, in0, out0);
      forall v | 0 <= v < Size() && in0[v] == [] && out0[v] == [] ensures IsLonely(v) {
        if v != x {
          RemoveFirstTimesEmpty(x, multiset(out0[x])[v]);
          RemoveFirstTimesEmpty(x, multiset(in0[x])[v]);
        }
      }
      if WasWellFormed(in0, out0) {
        StripWellFormed(x, in0, out0);
        StripUnreferences(x, in0, out0);
      }
      if WasOutMirrored(in0, out0) && (forall v :: 0 <= v < |in0| ==> NoDup(out0[v])) {
        StripOutMirrored(x, in0, out0);
      }
    }

    /** Stripping only removes entries, and keeps every entry not involving `x`. */
    lemma StripKeeps(x: Id, in0: seq<seq<Id>>, out0: seq<seq<Id>>)
      requires Valid() && Has(x) && StrippedFrom(x, in0, out0)
      ensures forall v, w :: 0 <= v < Size() && w in edgeIn[v] ==> w in in0[v]
      ensures forall w, v :: 0 <= w < Size() && v in edgeOut[w] ==> v in out0[w]
      ensures forall v, w :: 0 <= v < Size() && v != x && w != x && w in in0[v] ==> w in edgeIn[v]
      ensures forall w, v :: 0 <= w < Size() && v != x && w != x && v in out0[w] ==> v in edgeOut[w]
    {
      forall v, w | 0 <= v < Size() && w in edgeIn[v] ensures w in in0[v] {
        if v != x { RemoveFirstTimesSub(in0[v], x, multiset(out0[x])[v], w); }
      }
      forall w, v | 0 <= w < Size() && v in edgeOut[w] ensures v in out0[w] {
        if w != x { RemoveFirstTimesSub(out0[w], x, multiset(in0[x])[w], v); }
      }
      forall v, w | 0 <= v < Size() && v != x && w != x && w in in0[v] ensures w in edgeIn[v] {
        RemoveFirstTimesKeeps(in0[v], x, multiset(out0[x])[v], w);
      }
      forall w, v | 0 <= w < Size() && v != x && w != x && v in out0[w] ensures v in edgeOut[w] {
        RemoveFirstTimesKeeps(out0[w], x, multiset(in0[x])[w], v);
      }
    }

    /** On a well-formed graph, stripping `x` drops every reference to `x`. */
    lemma StripUnreferences(x: Id, in0: seq<seq<Id>>, out0: seq<seq<Id>>)
      requires Valid() && Has(x) && StrippedFrom(x, in0, out0) && WasWellFormed(in0, out0)
      ensures forall v :: 0 <= v < Size() ==> x !in edgeIn[v] && x !in edgeOut[v]
      ensures Simple()
    {
      forall v | 0 <= v < Size() && v != x
        ensures NoDup(edgeIn[v]) && x !in edgeIn[v] && NoDup(edgeOut[v]) && x !in edgeOut[v]
      {
        StripListFacts(in0[v], x, multiset(out0[x])[v], out0[x], v);
        StripListFacts(out0[v], x, multiset(in0[x])[v], in0[x], v);
      }
    }

    lemma StripWellFormed(x: Id, in0: seq<seq<Id>>, out0: seq<seq<Id>>)
      requires Valid() && Has(x) && StrippedFrom(x, in0, out0) && WasWellFormed(in0, out0)
      ensures WellFormed()
    {
      StripKeeps(x, in0, out0);
      StripUnreferences(x, in0, out0);
      forall u, v | 0 <= u < Size() && 0 <= v < Size() ensures u in edgeIn[v] <==> v in edgeOut[u] {
        if u != x && v != x {
          assert u in edgeIn[v] <==> u in in0[v];
          assert v in edgeOut[u] <==> v in out0[u];
        }
      }
    }

    lemma StripOutMirrored(x: Id, in0: seq<seq<Id>>, out0: seq<seq<Id>>)
      requires Valid() && Has(x) && StrippedFrom(x, in0, out0) && WasOutMirrored(in0, out0)
      requires forall v :: 0 <= v < |in0| ==> NoDup(out0[v])
      ensures OutMirrored()
    {
      StripKeeps(x, in0, out0);
      forall u, v | 0 <= u < Size() && 0 <= v < Size() && v in edgeOut[u] ensures u in edgeIn[v] {
        assert v in out0[u] && u in in0[v] && u != x;
        if v == x {
          assert multiset(in0[x])[u] > 0;
          NoDupCount(out0[u], x);
          RemoveFirstTimesCount(out0[u], x, multiset(in0[x])[u], x);
          assert false;
        }
      }
    }

    /** `for o in outgoing { o.deleteIncomingEdge(node: x) }`. */
    method DeleteFromIncomingLists(outgoing: seq<Id>, x: Id)
      requires Valid() && BoundedAt(outgoing, Size())
      modifies this
      ensures Valid() && Size() == old(Size()) && edgeOut == old(edgeOut)
      ensures forall v :: 0 <= v < Size() ==> edgeIn[v] == RemoveFirstTimes(old(edgeIn[v]), x, multiset(outgoing)[v])
    {
      ghost var lists0 := edgeIn;
      var i := 0;
      while i < |outgoing|
        invariant 0 <= i <= |outgoing|
        invariant Valid() && Size() == old(Size()) && edgeOut == old(edgeOut)
        invariant RemovedTimes(lists0, edgeIn, x, outgoing[..i])
      {
        ghost var prev := edgeIn;
        DeleteIncomingEdge(outgoing[i], x);
        RemovedTimesStep(lists0, prev, edgeIn, x, outgoing, i);
        i := i + 1;
      }
      assert outgoing[..i] == outgoing;
    }

    /** `for n in incoming { n.deleteOutgoingEdge(node: x) }`. */
    method DeleteFromOutgoingLists(incoming: seq<Id>, x: Id)
      requires Valid() && BoundedAt(incoming, Size())
      modifies this
      ensures Valid() && Size() == old(Size()) && edgeIn == old(edgeIn)
      ensures forall v :: 0 <= v < Size() ==> edgeOut[v] == RemoveFirstTimes(old(edgeOut[v]), x, multiset(incoming)[v])
    {
      ghost var lists0 := edgeOut;
      var i := 0;
      while i < |incoming|
        invariant 0 <= i <= |incoming|
        invariant Valid() && Size() == old(Size()) && edgeIn == old(edgeIn)
        invariant RemovedTimes(lists0, edgeOut, x, incoming[..i])
      {
        ghost var prev := edgeOut;
        DeleteOutgoingEdge(incoming[i], x);
        RemovedTimesStep(lists0, prev, edgeOut, x, incoming, i);
        i := i + 1;
      }
      assert incoming[..i] == incoming;
    }
  }

  /** Removing `x` from incoming lists keeps every entry that does not
      involve `x` mirrored. */
  lemma FirstLoopMirroredAway(x: Id, in0: seq<seq<Id>>, out0: seq<seq<Id>>, in1: seq<seq<Id>>)
    requires x < |in0| && WasWellFormed(in0, out0) && FirstLoopDone(in0, out0, in1, x)
    ensures WasMirroredAway(in1, out0, x)
  {
    forall u: Id, v: Id | 0 <= u < |in1| && 0 <= v < |in1| && u != x && v != x
      ensures u in in1[v] <==> v in out0[u]
    {
      assert in1[v] == RemoveFirstTimes(in0[v], x, multiset(out0[x])[v]);
      RemoveFirstTimesKeeps(in0[v], x, multiset(out0[x])[v], u);

    }
  }

  /** Dropping `x` from one outgoing list keeps every entry that does not
      involve `x` mirrored. */
  lemma DeletedOutgoingKeeps(x: Id, p: Id, in0: seq<seq<Id>>, out0: seq<seq<Id>>, in1: seq<seq<Id>>, out1: seq<seq<Id>>)
    requires p < |out0| && WasMirroredAway(in0, out0, x)
    requires in1 == in0 && out1 == out0[p := RemoveFirst(out0[p], x)]
    ensures WasMirroredAway(in1, out1, x)
  {
    forall u: Id, v: Id | 0 <= u < |in1| && 0 <= v < |in1| && u != x && v != x
      ensures u in in1[v] <==> v in out1[u]
    {
      if u == p {
        assert RemoveFirstTimes(out0[p], x, 1) == RemoveFirst(out0[p], x);
        RemoveFirstTimesKeeps(out0[p], x, 1, v);
      }
    }
  }

  /** Once `x` is referenced nowhere and its own lists are empty, mirroring
      away from `x` is mirroring. */
  lemma ClearedMirrored(x: Id, in2: seq<seq<Id>>, out2: seq<seq<Id>>, in3: seq<seq<Id>>, out3: seq<seq<Id>>)
    requires x < |in2| && WasMirroredAway(in2, out2, x)
    requires in3 == in2[x := []] && out3 == out2[x := []] && |in3| == |out3|
    requires Unreferenced(x, in3, out3)
    ensures WasMirroredAway(in3, out3, |in3|)
  {
  }

  /** Each list `v` of `lists` is `lists0[v]` with `x` removed once per occurrence of `v` in `list`. */
  ghost predicate RemovedTimes(lists0: seq<seq<Id>>, lists: seq<seq<Id>>, x: Id, list: seq<Id>) {
    |lists| == |lists0| && forall v :: 0 <= v < |lists| ==> lists[v] == RemoveFirstTimes(lists0[v], x, multiset(list)[v])
  }

  /** One more step of a removal loop over `list`. */
  lemma RemovedTimesStep(lists0: seq<seq<Id>>, prev: seq<seq<Id>>, lists: seq<seq<Id>>, x: Id, list: seq<Id>, i: nat)
    requires i < |list| && list[i] < |prev| && RemovedTimes(lists0, prev, x, list[..i])
    requires lists == prev[list[i] := RemoveFirst(prev[list[i]], x)]
    ensures RemovedTimes(lists0, lists, x, list[..i + 1])
  {
    assert list[..i + 1] == list[..i] + [list[i]];
    forall v | 0 <= v < |lists|
      ensures lists[v] == RemoveFirstTimes(lists0[v], x, multiset(list[..i + 1])[v])
    {
      if v == list[i] {
        assert multiset(list[..i + 1])[v] == multiset(list[..i])[v] + 1;
      } else {
        assert multiset(list[..i + 1])[v] == multiset(list[..i])[v];
      }
    }
  }

  ghost predicate WasWellFormed(in0: seq<seq<Id>>, out0: seq<seq<Id>>) {
    |in0| == |out0| &&
    (forall v :: 0 <= v < |in0| ==> NoDup(in0[v]) && NoDup(out0[v])) &&
    (forall u, v :: 0 <= u < |in0| && 0 <= v < |in0| ==> (u in in0[v] <==> v in out0[u]))
  }

  /** One list of a stripped well-formed graph: `x` is gone and nothing else changed. */
  lemma StripListFacts(s: seq<Id>, x: Id, k: nat, mirror: seq<Id>, v: Id)
    requires NoDup(s) && NoDup(mirror) && k == multiset(mirror)[v] && (x in s <==> v in mirror)
    ensures NoDup(RemoveFirstTimes(s, x, k)) && x !in RemoveFirstTimes(s, x, k)
  {
    NoDupCount(mirror, v);
    if x in s {
      RemoveFirstTimesNoDup(s, x, k);
    } else {
      assert k == 0;
    }
  }

  ghost predicate WasMirroredAway(in0: seq<seq<Id>>, out0: seq<seq<Id>>, x: Id) {
    |in0| == |out0| &&
    forall u, v :: 0 <= u < |in0| && 0 <= v < |in0| && u != x && v != x ==> (u in in0[v] <==> v in out0[u])
  }

  ghost predicate WasOutMirrored(in0: seq<seq<Id>>, out0: seq<seq<Id>>) {
    |in0| == |out0| &&
    forall u, v :: 0 <= u < |in0| && 0 <= v < |in0| && v in out0[u] ==> u in in0[v]
  }
}
