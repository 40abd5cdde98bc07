/** The second loop of `TFInstanceNormOptimizer.optimize`
    (Sources/Adapters/Tensorflow/TFInstanceNormOptimizer.swift, lines 74-82):
    for every scope with both an input and an output, the output gains the
    input as an incoming node, then every queued node of the scope is
    stripped. Scopes are taken in any order. */
module TFNormWiring {
  import opened Wrappers
  import opened Graph
  import opened TFOptimizers
  import opened TFRewrites
  import opened TFNormScopes

  /** `if let input = data.input, let output = data.output`. */
  predicate Bridges(r: INormNodes) {
    r.input.Some? && r.output.Some?
  }

  /** Every recorded node is a node of a table of size `n`. */
  ghost predicate RecordsBounded(m: map<string, INormNodes>, n: nat) {
    forall id :: id in m ==>
      (m[id].input.Some? ==> m[id].input.value < n) &&
      (m[id].output.Some? ==> m[id].output.value < n) &&
      Bounded(m[id].toStrip, n)
  }

  /** `x` is queued by a bridged scope among `ids`. */
  ghost predicate Queued(m: map<string, INormNodes>, ids: seq<string>, x: Id) {
    exists id :: id in ids && id in m && Bridges(m[id]) && x in m[id].toStrip
  }

  /** `x` is the input or the output of a bridged scope among `ids`. */
  ghost predicate IsEnd(m: map<string, INormNodes>, ids: seq<string>, x: Id) {
    exists id :: id in ids && id in m && Bridges(m[id]) && (x == m[id].input.value || x == m[id].output.value)
  }

  /** `v` is the output and `w` the input of a bridged scope among `ids`. */
  ghost predicate LinkedBy(m: map<string, INormNodes>, ids: seq<string>, v: Id, w: Id) {
    exists id :: id in ids && id in m && Bridges(m[id]) && m[id].output.value == v && m[id].input.value == w
  }

  /** Every node some bridged scope strips. */
  ghost function Gone(m: map<string, INormNodes>, ids: seq<string>, n: nat): set<Id> {
    set x | 0 <= x < n && Queued(m, ids, x)
  }

  /** Node `x` has no edge in either direction. */
  ghost predicate Alone(ins: seq<seq<Id>>, outs: seq<seq<Id>>, x: Id)
    requires x < |ins| && x < |outs|
  {
    ins[x] == [] && outs[x] == []
  }

  /** `for node in data.toStrip { node.strip() }`: every listed node ends up
      lonely; lonely nodes stay lonely; no edge is added; edges between nodes
      outside `gone` are kept. */
  method StripEach(t: NodeTable, list: seq<Id>, ghost gone: set<Id>)
    requires t.Valid() && Bounded(list, t.Size()) && forall x :: x in list ==> x in gone
    modifies t
    ensures t.Valid() && t.Size() == old(t.Size())
    ensures forall x :: x in list ==> t.IsLonely(x)
    ensures forall v :: 0 <= v < t.Size() && old(t.IsLonely(v)) ==> t.IsLonely(v)
    ensures Shrunk(old(t.edgeIn), t.edgeIn) && Shrunk(old(t.edgeOut), t.edgeOut)
    ensures Kept(old(t.edgeIn), t.edgeIn, gone) && Kept(old(t.edgeOut), t.edgeOut, gone)
    ensures old(t.WellFormed()) ==> t.WellFormed()
  {
    BoundedIsBoundedAt(list, t.Size());
    for i := 0 to |list|
      invariant t.Valid() && t.Size() == old(t.Size())
      invariant forall k :: 0 <= k < i ==> t.IsLonely(list[k])
      invariant forall v :: 0 <= v < t.Size() && old(t.IsLonely(v)) ==> t.IsLonely(v)
      invariant Shrunk(old(t.edgeIn), t.edgeIn) && Shrunk(old(t.edgeOut), t.edgeOut)
      invariant Kept(old(t.edgeIn), t.edgeIn, gone) && Kept(old(t.edgeOut), t.edgeOut, gone)
      invariant old(t.WellFormed()) ==> t.WellFormed()
    {
      ghost var in1, out1 := t.edgeIn, t.edgeOut;
      assert list[i] in list;
      t.Strip(list[i]);
      KeptStep(old(t.edgeIn), in1, t.edgeIn, gone, list[i]);
      KeptStep(old(t.edgeOut), out1, t.edgeOut, gone, list[i]);
    }
    forall x | x in list ensures t.IsLonely(x) {
      var k :| 0 <= k < |list| && list[k] == x;
    }
  }

  /** Lists that only grow keep every entry. */
  lemma GrownKept(lists0: seq<seq<Id>>, lists1: seq<seq<Id>>, gone: set<Id>)
    requires GrownFrom(lists0, lists1)
    ensures Kept(lists0, lists1, gone)
  {
  }

  /** One bridged scope (lines 76-80): the output gains the input as an
      incoming node, then the queued nodes are stripped. The only edge added
      is input -> output, the queued nodes end up lonely, and the link
      survives unless the input or the output is itself stripped. */
  method WireGroup(t: NodeTable, r: INormNodes, ghost gone: set<Id>)
    requires t.Valid() && Bridges(r) && r.input.value < t.Size() && r.output.value < t.Size()
    requires Bounded(r.toStrip, t.Size()) && forall x :: x in r.toStrip ==> x in gone
    modifies t
    ensures t.Valid() && t.Size() == old(t.Size())
    ensures forall x :: x in r.toStrip ==> Alone(t.edgeIn, t.edgeOut, x)
    ensures forall v :: (0 <= v < t.Size() && Alone(old(t.edgeIn), old(t.edgeOut), v) &&
      v != r.input.value && v != r.output.value) ==> Alone(t.edgeIn, t.edgeOut, v)
    ensures forall v, w :: 0 <= v < t.Size() && w in t.edgeIn[v] ==>
      w in old(t.edgeIn)[v] || (v == r.output.value && w == r.input.value)
    ensures forall w, v :: 0 <= w < t.Size() && v in t.edgeOut[w] ==>
      v in old(t.edgeOut)[w] || (v == r.output.value && w == r.input.value)
    ensures Kept(old(t.edgeIn), t.edgeIn, gone)
    ensures r.input.value !in gone && r.output.value !in gone ==> r.input.value in t.edgeIn[r.output.value]
    ensures Kept(old(t.edgeOut), t.edgeOut, gone)
    ensures old(t.WellFormed()) ==> t.WellFormed()
  {
    var input, output := r.input.value, r.output.value;
    AddEdge(t, output, input);
    ghost var in1, out1 := t.edgeIn, t.edgeOut;
    GrownKept(old(t.edgeIn), in1, gone);
    GrownKept(old(t.edgeOut), out1, gone);
    StripEach(t, r.toStrip, gone);
    forall v | 0 <= v < t.Size() && Alone(old(t.edgeIn), old(t.edgeOut), v) && v != input && v != output
      ensures Alone(t.edgeIn, t.edgeOut, v)
    {
      assert Alone(in1, out1, v);
      assert t.IsLonely(v);
    }
    KeptTrans(old(t.edgeIn), in1, t.edgeIn, gone, gone);
    KeptTrans(old(t.edgeOut), out1, t.edgeOut, gone, gone);
  }

  /** The bridged scopes `ids` have been wired, turning (`in0`, `out0`) into
      (`in1`, `out1`): their queued nodes other than inputs and outputs are
      lonely, ... */
  ghost predicate QueuedAlone(m: map<string, INormNodes>, ids: seq<string>, n: nat, in1: seq<seq<Id>>, out1: seq<seq<Id>>)
    requires |in1| == n && |out1| == n
  {
    forall x :: 0 <= x < n && Queued(m, ids, x) && !IsEnd(m, ids, x) ==> Alone(in1, out1, x)
  }

  /** ... lonely nodes other than inputs and outputs stayed lonely, ... */
  ghost predicate AloneKept(m: map<string, INormNodes>, ids: seq<string>, n: nat,
                            in0: seq<seq<Id>>, out0: seq<seq<Id>>, in1: seq<seq<Id>>, out1: seq<seq<Id>>)
    requires |in0| == n && |out0| == n && |in1| == n && |out1| == n
  {
    forall x :: 0 <= x < n && Alone(in0, out0, x) && !IsEnd(m, ids, x) ==> Alone(in1, out1, x)
  }

  /** ... the only entries gained are input -> output links, ... */
  ghost predicate GainsLinked(m: map<string, INormNodes>, ids: seq<string>, n: nat,
                              in0: seq<seq<Id>>, out0: seq<seq<Id>>, in1: seq<seq<Id>>, out1: seq<seq<Id>>)
    requires |in0| == n && |out0| == n && |in1| == n && |out1| == n
  {
    (forall v, w :: 0 <= v < n && w in in1[v] ==> w in in0[v] || LinkedBy(m, ids, v, w)) &&
    (forall w, v :: 0 <= w < n && v in out1[w] ==> v in out0[w] || LinkedBy(m, ids, v, w))
  }

  /** ... and a scope whose input and output are not in `gone` has them linked. */
  ghost predicate LinksKept(m: map<string, INormNodes>, ids: seq<string>, n: nat, gone: set<Id>, in1: seq<seq<Id>>)
    requires |in1| == n && RecordsBounded(m, n)
  {
    forall id :: id in ids && id in m && Bridges(m[id]) && m[id].input.value !in gone && m[id].output.value !in gone ==>
      m[id].input.value in in1[m[id].output.value]
  }

  /** What `WireGroup` of scope `r` does to the lists. */
  ghost predicate GroupWired(r: INormNodes, n: nat, gone: set<Id>,
                             in1: seq<seq<Id>>, out1: seq<seq<Id>>, in2: seq<seq<Id>>, out2: seq<seq<Id>>)
    requires Bridges(r) && |in1| == n && |out1| == n && |in2| == n && |out2| == n && Bounded(r.toStrip, n)
  {
    (forall x :: x in r.toStrip ==> Alone(in2, out2, x)) &&
    (forall v :: 0 <= v < n && Alone(in1, out1, v) && v != r.input.value && v != r.output.value ==> Alone(in2, out2, v)) &&
    (forall v, w :: 0 <= v < n && w in in2[v] ==> w in in1[v] || (v == r.output.value && w == r.input.value)) &&
    (forall w, v :: 0 <= w < n && v in out2[w] ==> v in out1[w] || (v == r.output.value && w == r.input.value)) &&
    Kept(in1, in2, gone) &&
    (r.input.value !in gone && r.output.value !in gone && r.output.value < n ==> r.input.value in in2[r.output.value])
  }

  /** The scopes `order[..j + 1]` are those of `order[..j]` and `order[j]`. */
  lemma PrefixStep(order: seq<string>, j: nat)
    requires j < |order|
    ensures order[..j + 1] == order[..j] + [order[j]]
    ensures forall id :: id in order[..j + 1] <==> id in order[..j] || id == order[j]
  {
    assert order[..j + 1] == order[..j] + [order[j]];
  }

  /** An input or output of the first `j` scopes is one of the first `j + 1`. */
  lemma EndsGrow(m: map<string, INormNodes>, order: seq<string>, j: nat)
    requires j < |order|
    ensures forall x :: IsEnd(m, order[..j], x) ==> IsEnd(m, order[..j + 1], x)
  {
    PrefixStep(order, j);
    forall x | IsEnd(m, order[..j], x) ensures IsEnd(m, order[..j + 1], x) {
      var id :| id in order[..j] && id in m && Bridges(m[id]) && (x == m[id].input.value || x == m[id].output.value);
      assert id in order[..j + 1];
    }
  }

  lemma AloneStep(m: map<string, INormNodes>, order: seq<string>, j: nat, n: nat, gone: set<Id>,
                  in0: seq<seq<Id>>, out0: seq<seq<Id>>, in1: seq<seq<Id>>, out1: seq<seq<Id>>,
                  in2: seq<seq<Id>>, out2: seq<seq<Id>>)
    requires j < |order| && order[j] in m && Bridges(m[order[j]]) && RecordsBounded(m, n)
    requires |in0| == n && |out0| == n && |in1| == n && |out1| == n && |in2| == n && |out2| == n
    requires QueuedAlone(m, order[..j], n, in1, out1) && AloneKept(m, order[..j], n, in0, out0, in1, out1)
    requires GroupWired(m[order[j]], n, gone, in1, out1, in2, out2)
    ensures QueuedAlone(m, order[..j + 1], n, in2, out2) && AloneKept(m, order[..j + 1], n, in0, out0, in2, out2)
  {
    PrefixStep(order, j);
    var r := m[order[j]];
    assert IsEnd(m, order[..j + 1], r.input.value) && IsEnd(m, order[..j + 1], r.output.value) by {
      assert order[j] in order[..j + 1];
    }
    EndsGrow(m, order, j);
    forall x | 0 <= x < n && Queued(m, order[..j + 1], x) && !IsEnd(m, order[..j + 1], x) ensures Alone(in2, out2, x) {
      var id :| id in order[..j + 1] && id in m && Bridges(m[id]) && x in m[id].toStrip;
      if id != order[j] {
        assert Queued(m, order[..j], x);
      }
    }
  }

  lemma GainsStep(m: map<string, INormNodes>, order: seq<string>, j: nat, n: nat, gone: set<Id>,
                  in0: seq<seq<Id>>, out0: seq<seq<Id>>, in1: seq<seq<Id>>, out1: seq<seq<Id>>,
                  in2: seq<seq<Id>>, out2: seq<seq<Id>>)
    requires j < |order| && order[j] in m && Bridges(m[order[j]]) && RecordsBounded(m, n)
    requires |in0| == n && |out0| == n && |in1| == n && |out1| == n && |in2| == n && |out2| == n
    requires GainsLinked(m, order[..j], n, in0, out0, in1, out1)
    requires GroupWired(m[order[j]], n, gone, in1, out1, in2, out2)
    ensures GainsLinked(m, order[..j + 1], n, in0, out0, in2, out2)
  {
    PrefixStep(order, j);
    forall v, w | LinkedBy(m, order[..j], v, w) ensures LinkedBy(m, order[..j + 1], v, w) {
      var id :| id in order[..j] && id in m && Bridges(m[id]) && m[id].output.value == v && m[id].input.value == w;
      assert id in order[..j + 1];
    }
    var r := m[order[j]];
    assert LinkedBy(m, order[..j + 1], r.output.value, r.input.value) by {
      assert order[j] in order[..j + 1];
    }
  }

  lemma LinksStep(m: map<string, INormNodes>, order: seq<string>, j: nat, n: nat, gone: set<Id>,
                  in1: seq<seq<Id>>, out1: seq<seq<Id>>, in2: seq<seq<Id>>, out2: seq<seq<Id>>)
    requires j < |order| && order[j] in m && Bridges(m[order[j]]) && RecordsBounded(m, n)
    requires |in1| == n && |out1| == n && |in2| == n && |out2| == n
    requires LinksKept(m, order[..j], n, gone, in1)
    requires GroupWired(m[order[j]], n, gone, in1, out1, in2, out2)
    ensures LinksKept(m, order[..j + 1], n, gone, in2)
  {
    PrefixStep(order, j);
  }

  /** A scope that is not bridged changes nothing. */
  lemma SkipStep(m: map<string, INormNodes>, order: seq<string>, j: nat, n: nat, gone: set<Id>,
                 in0: seq<seq<Id>>, out0: seq<seq<Id>>, in1: seq<seq<Id>>, out1: seq<seq<Id>>)
    requires j < |order| && order[j] in m && !Bridges(m[order[j]]) && RecordsBounded(m, n)
    requires |in0| == n && |out0| == n && |in1| == n && |out1| == n
    requires QueuedAlone(m, order[..j], n, in1, out1) && AloneKept(m, order[..j], n, in0, out0, in1, out1)
    requires GainsLinked(m, order[..j], n, in0, out0, in1, out1) && LinksKept(m, order[..j], n, gone, in1)
    ensures QueuedAlone(m, order[..j + 1], n, in1, out1) && AloneKept(m, order[..j + 1], n, in0, out0, in1, out1)
    ensures GainsLinked(m, order[..j + 1], n, in0, out0, in1, out1) && LinksKept(m, order[..j + 1], n, gone, in1)
  {
    PrefixStep(order, j);
    EndsGrow(m, order, j);
    forall x | 0 <= x < n && Queued(m, order[..j + 1], x) ensures Queued(m, order[..j], x) {
      var id :| id in order[..j + 1] && id in m && Bridges(m[id]) && x in m[id].toStrip;
    }
    forall v, w | LinkedBy(m, order[..j], v, w) ensures LinkedBy(m, order[..j + 1], v, w) {
      var id :| id in order[..j] && id in m && Bridges(m[id]) && m[id].output.value == v && m[id].input.value == w;
      assert id in order[..j + 1];
    }
  }

  /** One turn of the second loop: scope `order[j]`, wired if bridged. */
  method WireAt(t: NodeTable, m: map<string, INormNodes>, order: seq<string>, j: nat, n: nat, ghost gone: set<Id>,
                ghost in0: seq<seq<Id>>, ghost out0: seq<seq<Id>>, ghost wf: bool)
    requires t.Valid() && t.Size() == n && RecordsBounded(m, n) && gone == Gone(m, order, n)
    requires j < |order| && order[j] in m && |in0| == n && |out0| == n
    requires QueuedAlone(m, order[..j], n, t.edgeIn, t.edgeOut)
    requires AloneKept(m, order[..j], n, in0, out0, t.edgeIn, t.edgeOut)
    requires GainsLinked(m, order[..j], n, in0, out0, t.edgeIn, t.edgeOut)
    requires LinksKept(m, order[..j], n, gone, t.edgeIn)
    requires Kept(in0, t.edgeIn, gone) && Kept(out0, t.edgeOut, gone)
    requires wf ==> t.WellFormed()
    modifies t
    ensures t.Valid() && t.Size() == n
    ensures QueuedAlone(m, order[..j + 1], n, t.edgeIn, t.edgeOut)
    ensures AloneKept(m, order[..j + 1], n, in0, out0, t.edgeIn, t.edgeOut)
    ensures GainsLinked(m, order[..j + 1], n, in0, out0, t.edgeIn, t.edgeOut)
    ensures LinksKept(m, order[..j + 1], n, gone, t.edgeIn)
    ensures Kept(in0, t.edgeIn, gone) && Kept(out0, t.edgeOut, gone)
    ensures wf ==> t.WellFormed()
  {
    ghost var in1, out1 := t.edgeIn, t.edgeOut;
    var r := m[order[j]];
    if Bridges(r) {
      forall x | x in r.toStrip ensures x in gone {
        assert order[j] in order;
        assert Queued(m, order, x);
      }
      WireGroup(t, r, gone);
      assert GroupWired(r, n, gone, in1, out1, t.edgeIn, t.edgeOut);
      AloneStep(m, order, j, n, gone, in0, out0, in1, out1, t.edgeIn, t.edgeOut);
      GainsStep(m, order, j, n, gone, in0, out0, in1, out1, t.edgeIn, t.edgeOut);
      LinksStep(m, order, j, n, gone, in1, out1, t.edgeIn, t.edgeOut);
      KeptTrans(in0, in1, t.edgeIn, gone, gone);
      KeptTrans(out0, out1, t.edgeOut, gone, gone);
    } else {
      SkipStep(m, order, j, n, gone, in0, out0, in1, out1);
    }
  }

  /** The second loop (lines 75-82), over the scopes in the order `order`
      lists them (`mappings.keys`, in whatever order the dictionary gives).
      The queued nodes of bridged scopes that are no scope's input or output
      end up lonely; lonely nodes stay lonely unless they are an input or an
      output; the only edges added are input -> output links of bridged
      scopes, each present at the end unless one of its ends was stripped;
      edges between nodes that are never stripped are kept. */
  method WireNorms(t: NodeTable, m: map<string, INormNodes>, order: seq<string>)
    requires t.Valid() && RecordsBounded(m, t.Size())
    requires forall id :: id in m <==> id in order
    modifies t
    ensures t.Valid() && t.Size() == old(t.Size())
    ensures forall x :: 0 <= x < t.Size() && Queued(m, order, x) && !IsEnd(m, order, x) ==> t.IsLonely(x)
    ensures forall x :: 0 <= x < t.Size() && old(t.IsLonely(x)) && !IsEnd(m, order, x) ==> t.IsLonely(x)
    ensures forall v, w :: 0 <= v < t.Size() && w in t.edgeIn[v] ==> w in old(t.edgeIn)[v] || LinkedBy(m, order, v, w)
    ensures forall w, v :: 0 <= w < t.Size() && v in t.edgeOut[w] ==> v in old(t.edgeOut)[w] || LinkedBy(m, order, v, w)
    ensures Kept(old(t.edgeIn), t.edgeIn, Gone(m, order, t.Size()))
    ensures Kept(old(t.edgeOut), t.edgeOut, Gone(m, order, t.Size()))
    ensures forall id :: (id in m && Bridges(m[id]) &&
      m[id].input.value !in Gone(m, order, t.Size()) && m[id].output.value !in Gone(m, order, t.Size())) ==>
      m[id].input.value in t.edgeIn[m[id].output.value]
    ensures old(t.WellFormed()) ==> t.WellFormed()
  {
    var n := t.Size();
    ghost var gone := Gone(m, order, n);
    ghost var in0, out0 := t.edgeIn, t.edgeOut;
    for j := 0 to |order|
      invariant t.Valid() && t.Size() == n
      invariant QueuedAlone(m, order[..j], n, t.edgeIn, t.edgeOut)
      invariant AloneKept(m, order[..j], n, in0, out0, t.edgeIn, t.edgeOut)
      invariant GainsLinked(m, order[..j], n, in0, out0, t.edgeIn, t.edgeOut)
      invariant LinksKept(m, order[..j], n, gone, t.edgeIn)
      invariant Kept(in0, t.edgeIn, gone) && Kept(out0, t.edgeOut, gone)
      invariant old(t.WellFormed()) ==> t.WellFormed()
    {
      assert order[j] in order;
      WireAt(t, m, order, j, n, gone, in0, out0, old(t.WellFormed()));
    }
    assert order[..|order|] == order;
  }
}
