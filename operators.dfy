/** The `->>` operators of Sources/Core/Operators.swift, which wire groups of
    layers together through `addIncomingEdge`. `->>` is left-associative, so
    `a ->> b ->> c` links `a` to `b` and then the combined group to `c`. */
module Operators {
  import opened SeqUtil
  import opened Graph
  import opened NetworkLayers

  /** The incoming list `s` after `addIncomingEdge(from: x)` was called for each `x` of `xs` in
      turn: each node not yet present is appended, in order. */
  function AppendNew(s: seq<Id>, xs: seq<Id>): seq<Id>
    decreases |xs|
  {
    if xs == [] then s
    else
      var p := AppendNew(s, xs[..|xs| - 1]);
      if xs[|xs| - 1] in p then p else p + [xs[|xs| - 1]]
  }

  /** What the result holds: the old entries, first and in order, then only nodes of `xs`, every
      node of `xs` present, and no duplicate when there was none. */
  lemma {:induction false} AppendNewContents(s: seq<Id>, xs: seq<Id>)
    ensures |AppendNew(s, xs)| >= |s| && AppendNew(s, xs)[..|s|] == s
    ensures forall y :: y in AppendNew(s, xs) <==> y in s || y in xs
    ensures NoDup(s) ==> NoDup(AppendNew(s, xs))
    decreases |xs|
  {
    if xs != [] {
      var init, x := xs[..|xs| - 1], xs[|xs| - 1];
      AppendNewContents(s, init);
      var p := AppendNew(s, init);
      assert xs == init + [x];
      if x !in p {
        assert (p + [x])[..|s|] == p[..|s|];
        if NoDup(p) {
          NoDupAppend(p, x);
        }
      }
    }
  }

  /** The lists `in1`/`out1` after every node of `sources` was linked into `t`, compared with the
      lists `in0`/`out0` before: `t`'s incoming list grew by the new sources, no other incoming
      list changed, and only the sources' outgoing lists gained entries, all of them `t`. */
  ghost predicate JoinedInto(in0: seq<seq<Id>>, out0: seq<seq<Id>>, in1: seq<seq<Id>>, out1: seq<seq<Id>>,
                             sources: seq<Id>, t: Id)
  {
    |in1| == |in0| && |out0| == |in0| && |out1| == |in0| && t < |in0| &&
    in1[t] == AppendNew(in0[t], sources) &&
    (forall v: Id :: 0 <= v < |in0| && v != t ==> in1[v] == in0[v]) &&
    (forall w: Id :: 0 <= w < |in0| && w !in sources ==> out1[w] == out0[w]) &&
    (forall w: Id, v: Id :: 0 <= w < |in0| && v in out0[w] ==> v in out1[w]) &&
    (forall w: Id, v: Id :: 0 <= w < |in0| && v in out1[w] ==> v in out0[w] || v == t)
  }

  /** `left ->> right`: the last node of `left` becomes an incoming node of the first node of
      `right`, and the result runs from the start of `left` to the end of `right`. */
  method Link(g: NodeTable, left: LayerGroup, right: LayerGroup) returns (r: LayerGroup)
    requires g.Valid() && g.Has(left.output) && g.Has(right.input)
    modifies g
    ensures r.input == left.input && r.output == right.output
    ensures g.Valid() && g.Size() == old(g.Size())
    ensures JoinedInto(old(g.edgeIn), old(g.edgeOut), g.edgeIn, g.edgeOut, [left.output], right.input)
    ensures old(g.WellFormed()) ==> g.WellFormed()
    ensures old(g.OutMirrored()) ==> g.OutMirrored()
  {
    Connect(g, right.input, left.output);
    assert [left.output][..0] == [];
    r := LayerGroup(left.input, right.output);
  }

  /** `[left] ->> right`: the last node of every group of `left` becomes an incoming node of the
      first node of `right`; the result starts where the first group of `left` starts (the source
      reads `left[0]`, so `left` must not be empty). */
  method LinkAll(g: NodeTable, left: seq<LayerGroup>, right: LayerGroup) returns (r: LayerGroup)
    requires g.Valid() && g.Has(right.input)
    requires forall k :: 0 <= k < |left| ==> g.Has(left[k].output)
    requires left != []
    modifies g
    ensures r.input == left[0].input && r.output == right.output
    ensures g.Valid() && g.Size() == old(g.Size())
    ensures JoinedInto(old(g.edgeIn), old(g.edgeOut), g.edgeIn, g.edgeOut, Outputs(left), right.input)
    ensures forall k :: 0 <= k < |left| ==> left[k].output in g.edgeIn[right.input]
    ensures old(g.WellFormed()) ==> g.WellFormed()
    ensures old(g.OutMirrored()) ==> g.OutMirrored()
  {
    var outs := Outputs(left);
    forall k | 0 <= k < |outs| ensures outs[k] < g.Size() {
      OutputsAt(left, k);
    }
    JoinAll(g, outs, right.input);
    forall k | 0 <= k < |left| ensures left[k].output in g.edgeIn[right.input] {
      AppendNewContents(old(g.edgeIn)[right.input], outs);
      OutputsAt(left, k);
    }
    r := LayerGroup(left[0].input, right.output);
  }

  /** The loop of `[left] ->> right`: `t.addIncomingEdge(from: u)` for every `u` of `sources`. */
  method JoinAll(g: NodeTable, sources: seq<Id>, t: Id)
    requires g.Valid() && g.Has(t)
    requires forall k :: 0 <= k < |sources| ==> sources[k] < g.Size()
    modifies g
    ensures g.Valid() && g.Size() == old(g.Size())
    ensures JoinedInto(old(g.edgeIn), old(g.edgeOut), g.edgeIn, g.edgeOut, sources, t)
    ensures old(g.WellFormed()) ==> g.WellFormed()
    ensures old(g.OutMirrored()) ==> g.OutMirrored()
  {
    var i := 0;
    while i < |sources|
      invariant 0 <= i <= |sources|
      invariant g.Valid() && g.Size() == old(g.Size())
      invariant JoinedInto(old(g.edgeIn), old(g.edgeOut), g.edgeIn, g.edgeOut, sources[..i], t)
      invariant old(g.WellFormed()) ==> g.WellFormed()
      invariant old(g.OutMirrored()) ==> g.OutMirrored()
    {
      assert sources[..i + 1] == sources[..i] + [sources[i]];
      ghost var in1, out1 := g.edgeIn, g.edgeOut;
      Connect(g, t, sources[i]);
      JoinStep(old(g.edgeIn), old(g.edgeOut), in1, out1, g.edgeIn, g.edgeOut, sources[..i], sources[i], t);
      i := i + 1;
    }
    assert sources[..i] == sources;
  }

  /** `left ->> [right]`: the last node of `left` becomes an incoming node of the first node of
      every group of `right`; one group per element of `right`, in order, is returned, each
      running from the start of `left` to the end of that element. */
  method Fan(g: NodeTable, left: LayerGroup, right: seq<LayerGroup>) returns (r: seq<LayerGroup>)
    requires g.Valid() && g.Has(left.output)
    requires forall k :: 0 <= k < |right| ==> g.Has(right[k].input)
    modifies g
    ensures |r| == |right|
    ensures forall k :: 0 <= k < |r| ==> r[k].input == left.input && r[k].output == right[k].output
    ensures g.Valid() && g.Size() == old(g.Size())
    ensures AddedToAll(old(g.edgeIn), old(g.edgeOut), g.edgeIn, g.edgeOut, left.output, Inputs(right))
    ensures forall k :: 0 <= k < |right| ==> g.Has(right[k].input) && left.output in g.edgeIn[right[k].input]
    ensures old(g.WellFormed()) ==> g.WellFormed()
    ensures old(g.OutMirrored()) ==> g.OutMirrored()
  {
    var targets := Inputs(right);
    forall k | 0 <= k < |targets| ensures targets[k] < g.Size() {
      InputsAt(right, k);
    }
    ConnectAll(g, targets, left.output);
    forall k | 0 <= k < |right| ensures g.Has(right[k].input) && left.output in g.edgeIn[right[k].input] {
      InputsAt(right, k);
    }
    // The groups returned do not depend on the graph, so they are built apart from the links.
    r := seq(|right|, k requires 0 <= k < |right| => LayerGroup(left.input, right[k].output));
  }

  /** The loop of `left ->> [right]`: `t.addIncomingEdge(from: u)` for every `t` of `targets`. */
  method ConnectAll(g: NodeTable, targets: seq<Id>, u: Id)
    requires g.Valid() && g.Has(u)
    requires forall k :: 0 <= k < |targets| ==> targets[k] < g.Size()
    modifies g
    ensures g.Valid() && g.Size() == old(g.Size())
    ensures AddedToAll(old(g.edgeIn), old(g.edgeOut), g.edgeIn, g.edgeOut, u, targets)
    ensures old(g.WellFormed()) ==> g.WellFormed()
    ensures old(g.OutMirrored()) ==> g.OutMirrored()
  {
    var i := 0;
    while i < |targets|
      invariant 0 <= i <= |targets|
      invariant g.Valid() && g.Size() == old(g.Size())
      invariant AddedToAll(old(g.edgeIn), old(g.edgeOut), g.edgeIn, g.edgeOut, u, targets[..i])
      invariant old(g.WellFormed()) ==> g.WellFormed()
      invariant old(g.OutMirrored()) ==> g.OutMirrored()
    {
      assert targets[..i + 1] == targets[..i] + [targets[i]];
      ghost var in1, out1 := g.edgeIn, g.edgeOut;
      Connect(g, targets[i], u);
      AddedToAllStep(old(g.edgeIn), old(g.edgeOut), in1, out1, g.edgeIn, g.edgeOut, u, targets[..i], targets[i]);
      i := i + 1;
    }
    assert targets[..i] == targets;
  }

  /** `a ->> b ->> c`, read left-associatively as `(a ->> b) ->> c`: both links are made and the
      chain runs from the start of `a` to the end of `c`; the first link survives the second. */
  method Chain(g: NodeTable, a: LayerGroup, b: LayerGroup, c: LayerGroup) returns (r: LayerGroup)
    requires g.Valid() && g.Has(a.output) && g.Has(b.input) && g.Has(b.output) && g.Has(c.input)
    modifies g
    ensures r == LayerGroup(a.input, c.output)
    ensures g.Valid() && g.Size() == old(g.Size())
    ensures a.output in g.edgeIn[b.input] && b.output in g.edgeIn[c.input]
    ensures forall v :: 0 <= v < g.Size() && v != b.input && v != c.input ==> g.edgeIn[v] == old(g.edgeIn[v])
    ensures old(g.WellFormed()) ==> g.WellFormed()
  {
    var ab := Link(g, a, b);
    assert a.output in AppendNew(old(g.edgeIn)[b.input], [a.output]) by {
      AppendNewContents(old(g.edgeIn)[b.input], [a.output]);
    }
    ghost var in1 := g.edgeIn;
    r := Link(g, ab, c);
    AppendNewContents(in1[c.input], [b.output]);
    AppendNewContents(in1[b.input], [b.output]);
  }

  /** `v.addIncomingEdge(from: u)`, with the well-formedness it keeps spelled out. */
  method Connect(g: NodeTable, v: Id, u: Id)
    requires g.Valid() && g.Has(v) && g.Has(u)
    modifies g
    ensures g.Valid() && g.Size() == old(g.Size())
    ensures g.edgeIn == if u in old(g.edgeIn[v]) then old(g.edgeIn) else old(g.edgeIn)[v := old(g.edgeIn[v]) + [u]]
    ensures g.edgeOut ==
      if u in old(g.edgeIn[v]) || v in old(g.edgeOut[u]) then old(g.edgeOut)
      else old(g.edgeOut)[u := old(g.edgeOut[u]) + [v]]
    ensures old(g.WellFormed()) ==> g.WellFormed()
    ensures old(g.OutMirrored()) ==> g.OutMirrored()
  {
    ghost var n := g.Size();
    g.AddIncomingEdge(v, u);
    assert old(g.MirroredAway(n)) ==> g.MirroredAway(n);
  }

  /** The last nodes of a list of groups. */
  function Outputs(gs: seq<LayerGroup>): (r: seq<Id>)
    ensures |r| == |gs|
  {
    if gs == [] then [] else Outputs(gs[..|gs| - 1]) + [gs[|gs| - 1].output]
  }

  lemma {:induction false} OutputsAt(gs: seq<LayerGroup>, k: nat)
    requires k < |gs|
    ensures Outputs(gs)[k] == gs[k].output
    decreases |gs|
  {
    if k < |gs| - 1 {
      OutputsAt(gs[..|gs| - 1], k);
    }
  }

  /** The first nodes of a list of groups. */
  function Inputs(gs: seq<LayerGroup>): (r: seq<Id>)
    ensures |r| == |gs|
  {
    if gs == [] then [] else Inputs(gs[..|gs| - 1]) + [gs[|gs| - 1].input]
  }

  lemma {:induction false} InputsAt(gs: seq<LayerGroup>, k: nat)
    requires k < |gs|
    ensures Inputs(gs)[k] == gs[k].input
    decreases |gs|
  {
    if k < |gs| - 1 {
      InputsAt(gs[..|gs| - 1], k);
    }
  }

  /** One more `addIncomingEdge(from: x)` into `t` extends `JoinedInto` by `x`. */
  lemma JoinStep(in0: seq<seq<Id>>, out0: seq<seq<Id>>, in1: seq<seq<Id>>, out1: seq<seq<Id>>,
                 in2: seq<seq<Id>>, out2: seq<seq<Id>>, done: seq<Id>, x: Id, t: Id)
    requires JoinedInto(in0, out0, in1, out1, done, t)
    requires x < |in1|
    requires in2 == if x in in1[t] then in1 else in1[t := in1[t] + [x]]
    requires out2 == if x in in1[t] || t in out1[x] then out1 else out1[x := out1[x] + [t]]
    ensures JoinedInto(in0, out0, in2, out2, done + [x], t)
  {
    var D := done + [x];
    assert D[..|D| - 1] == done;
    forall w: Id, v: Id | 0 <= w < |in0| && v in out2[w] ensures v in out0[w] || v == t {
      if w != x || v != t {
        assert v in out1[w];
      }
    }
  }
}
