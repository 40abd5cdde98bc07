/** The rewrites that fold one node into another:
    `TFConvOptimizer` and `TFConvDilationOptimizer`
    (Sources/Adapters/Tensorflow/TFConvOptimizer.swift), `TFDenseSubstitution`
    (Sources/Adapters/Tensorflow/TFDenseSubstitution.swift) and
    `TFVariableProcessor` (Sources/Adapters/Tensorflow/TFVariableProcessor.swift).

    Each pass visits the node list once, in order, and reads the table as
    the earlier steps of the same pass left it. */
module TFRewrites {
  import opened Wrappers
  import opened Strings
  import opened SeqUtil
  import opened Graph
  import opened TFProto
  import opened TFNames
  import opened TFGraphs
  import opened TFOptimizers

  predicate IsConvDef(def: NodeDef) { IsConvolution(def.op) }
  predicate IsAdditionDef(def: NodeDef) { IsAddition(def.op) }
  predicate IsWeightDef(def: NodeDef) { IsVariableOrConst(def.op) }

  // ---------------------------------------------------------------------
  // Replacing an incoming node

  /** Overwriting the first `a` keeps every other entry, brings in `c` and
      nothing else, and, applied at least once to a list holding `a`, leaves
      `c` in it. */
  lemma {:induction false} ReplacedTimesMembers(s: seq<Id>, a: Id, c: Id, k: nat)
    ensures forall y :: y in s && y != a ==> y in ReplacedTimes(s, a, c, k)
    ensures forall y :: y in ReplacedTimes(s, a, c, k) ==> y in s || y == c
    ensures k > 0 && a in s ==> c in ReplacedTimes(s, a, c, k)
  {
    if k > 0 {
      ReplacedTimesMembers(s, a, c, k - 1);
      var r := ReplacedTimes(s, a, c, k - 1);
      if a in r {
        var i := FirstIndex(r, a);
        assert Replaced(r, a, c) == r[i := c];
        assert Replaced(r, a, c)[i] == c;
        forall y | y in r && y != a ensures y in r[i := c] {
          var j :| 0 <= j < |r| && r[j] == y;
          assert r[i := c][j] == y;
        }
      }
    }
  }

  /** `for output in outs { output.replace(incomingEdge: b, with: n) }`:
      each listed node's first incoming `b`, once per listing, becomes `n`;
      `n`'s outgoing list has its first `b` overwritten by the output the
      first time a replacement happens while `n` still lists `b`. */
  method ReplaceIncoming(t: NodeTable, outs: seq<Id>, b: Id, n: Id)
    requires t.Valid() && t.Has(n) && BoundedAt(outs, t.Size())
    modifies t
    ensures t.Valid() && t.Size() == old(t.Size())
    ensures t.edgeIn == Redirected(old(t.edgeIn), b, n, outs)
    ensures forall w :: 0 <= w < t.Size() && w != n ==> t.edgeOut[w] == old(t.edgeOut[w])
    ensures forall y :: y in old(t.edgeOut[n]) && y != b ==> y in t.edgeOut[n]
    ensures forall y :: y in t.edgeOut[n] ==> y in old(t.edgeOut[n]) || y in outs
  {
    for k := 0 to |outs|
      invariant t.Valid() && t.Size() == old(t.Size())
      invariant t.edgeIn == Redirected(old(t.edgeIn), b, n, outs[..k])
      invariant forall w :: 0 <= w < t.Size() && w != n ==> t.edgeOut[w] == old(t.edgeOut[w])
      invariant forall y :: y in old(t.edgeOut[n]) && y != b ==> y in t.edgeOut[n]
      invariant forall y :: y in t.edgeOut[n] ==> y in old(t.edgeOut[n]) || y in outs[..k]
    {
      assert outs[..k + 1][..k] == outs[..k];
      assert outs[..k + 1] == outs[..k] + [outs[k]];
      ghost var row := t.edgeOut[n];
      t.Replace(outs[k], b, n);
      ReplacedTimesMembers(row, b, outs[k], 1);
    }
    assert outs[..|outs|] == outs;
  }

  /** The incoming lists after `ReplaceIncoming`, entry by entry. */
  lemma RedirectedMembers(in0: seq<seq<Id>>, b: Id, n: Id, outs: seq<Id>, v: Id)
    requires BoundedAt(outs, |in0|) && v < |in0|
    ensures forall y :: y in in0[v] && y != b ==> y in Redirected(in0, b, n, outs)[v]
    ensures forall y :: y in Redirected(in0, b, n, outs)[v] ==> y in in0[v] || y == n
    ensures v in outs && b in in0[v] ==> n in Redirected(in0, b, n, outs)[v]
  {
    RedirectedAt(in0, b, n, outs, v);
    ReplacedTimesMembers(in0[v], b, n, multiset(outs)[v]);
  }

  /** `v.addIncomingEdge(from: u)`, seen as a growth of the lists: `u`
      becomes an incoming node of `v`, only the lists of `v` and `u` change
      and nothing is lost. */
  method AddEdge(t: NodeTable, v: Id, u: Id)
    requires t.Valid() && t.Has(v) && t.Has(u)
    modifies t
    ensures t.Valid() && t.Size() == old(t.Size())
    ensures u in t.edgeIn[v]
    ensures GrownFrom(old(t.edgeIn), t.edgeIn) && GrownFrom(old(t.edgeOut), t.edgeOut)
    ensures forall w :: 0 <= w < t.Size() && w != v ==> t.edgeIn[w] == old(t.edgeIn[w])
    ensures forall w :: 0 <= w < t.Size() && w != u ==> t.edgeOut[w] == old(t.edgeOut[w])
    ensures forall w :: w in t.edgeIn[v] ==> w in old(t.edgeIn[v]) || w == u
    ensures forall w :: w in t.edgeOut[u] ==> w in old(t.edgeOut[u]) || w == v
    ensures old(t.WellFormed()) ==> t.WellFormed()
  {
    t.AddIncomingEdge(v, u);
    if old(t.WellFormed()) {
      assert t.MirroredAway(t.Size());
    }
  }

  // ---------------------------------------------------------------------
  // TFConvOptimizer

  /** The BiasAdd `TFConvOptimizer` folds into a convolution with outgoing
      list `outs`: the only successor, when it is a BiasAdd or Add, paired
      with the first Variable or Const among its incoming nodes. */
  function BiasOf(ins: seq<seq<Id>>, outs: seq<Id>, defs: seq<NodeDef>): (r: Option<(Id, Id)>)
    ensures r.Some? ==>
      |outs| == 1 && r.value.0 == outs[0] && r.value.0 < |ins| && Picked(r.value.0, defs, IsAdditionDef) &&
      r.value.1 in ins[r.value.0] && Picked(r.value.1, defs, IsWeightDef)
    ensures r.None? <==>
      |outs| != 1 || !Picked(outs[0], defs, IsAdditionDef) || outs[0] >= |ins| ||
      FirstWhere(ins[outs[0]], defs, IsWeightDef).None?
  {
    if |outs| == 1 && Picked(outs[0], defs, IsAdditionDef) && outs[0] < |ins| then
      match FirstWhere(ins[outs[0]], defs, IsWeightDef)
      case None => None
      case Some(bv) => Some((outs[0], bv))
    else None
  }

  /** The bias part of `TFConvOptimizer.optimize` for the convolution
      `conv`, from the graph `s0` to the graph `s1`: the convolution gains
      the bias variable as an incoming node, every successor of the BiasAdd
      sees the convolution in the BiasAdd's place, and the BiasAdd ends
      lonely; the edges between the other nodes are kept. Without such a
      BiasAdd nothing changes. No definition changes. */
  ghost predicate BiasFolded(conv: Id, s0: GraphState, s1: GraphState) {
    conv < |s0.defs| == |s0.ins| == |s0.outs| && s1.defs == s0.defs &&
    var f := BiasOf(s0.ins, s0.outs[conv], s0.defs);
    if f.None? then
      s1 == s0
    else
      var (b, bv) := f.value;
      |s1.ins| == |s1.outs| == |s0.ins| &&
      s1.ins[b] == [] && s1.outs[b] == [] && bv in s1.ins[conv] &&
      (forall o :: o in s0.outs[b] && o < |s0.ins| && b in s0.ins[o] && o != b ==> conv in s1.ins[o]) &&
      Kept(s0.ins, s1.ins, {b}) && Kept(s0.outs, s1.outs, {b})
  }

  /** The bias part of `TFConvOptimizer.optimize`, as `BiasFolded` states. */
  method FoldBias(t: NodeTable, defs: seq<NodeDef>, conv: Id)
    requires t.Valid() && t.Size() == |defs| && t.Has(conv) && IsConvolution(defs[conv].op)
    modifies t
    ensures t.Valid() && t.Size() == old(t.Size())
    ensures BiasFolded(conv, GraphState(old(t.edgeIn), old(t.edgeOut), defs), GraphState(t.edgeIn, t.edgeOut, defs))
  {
    var f := BiasOf(t.edgeIn, t.edgeOut[conv], defs);
    if f.Some? {
      var (b, bv) := f.value;
      assert b != conv && bv != b;
      AddEdge(t, conv, bv);
      ghost var in1, out1 := t.edgeIn, t.edgeOut;
      var outs := t.edgeOut[b];
      BoundedIsBoundedAt(outs, t.Size());
      ReplaceIncoming(t, outs, b, conv);
      ghost var in2, out2 := t.edgeIn, t.edgeOut;
      t.Strip(b);
      FoldFacts(old(t.edgeIn), old(t.edgeOut), in1, out1, in2, out2, t.edgeIn, t.edgeOut, b, bv, conv, outs);
    }
  }

  /** The lists through the three steps of `FoldBias`: adding the bias
      variable, replacing the BiasAdd in its successors, stripping it. */
  lemma FoldFacts(in0: seq<seq<Id>>, out0: seq<seq<Id>>, in1: seq<seq<Id>>, out1: seq<seq<Id>>,
                  in2: seq<seq<Id>>, out2: seq<seq<Id>>, in3: seq<seq<Id>>, out3: seq<seq<Id>>,
                  b: Id, bv: Id, conv: Id, outs: seq<Id>)
    requires |in0| == |out0| && b < |in0| && conv < |in0| && b != conv && bv != b && BoundedAt(outs, |in0|)
    requires GrownFrom(in0, in1) && GrownFrom(out0, out1) && bv in in1[conv] && outs == out1[b] && out1[b] == out0[b]
    requires in2 == Redirected(in1, b, conv, outs) && |out2| == |in0|
    requires forall w :: 0 <= w < |in0| && w != conv ==> out2[w] == out1[w]
    requires forall y :: y in out1[conv] && y != b ==> y in out2[conv]
    requires KeepsOthers(in2, in3, b) && KeepsOthers(out2, out3, b)
    ensures bv in in3[conv]
    ensures forall o :: o in out0[b] && b in in0[o] && o != b ==> conv in in3[o]
    ensures Kept(in0, in3, {b}) && Kept(out0, out3, {b})
  {
    forall v | 0 <= v < |in0|
      ensures forall y :: y in in1[v] && y != b ==> y in in2[v]
      ensures v in outs && b in in1[v] ==> conv in in2[v]
    {
      RedirectedMembers(in1, b, conv, outs, v);
    }
  }

  /** `d1` is `d0`, or `d0` with its `neuron` attribute set to a neuron op. */
  ghost predicate NeuronFolded(d0: NodeDef, d1: NodeDef) {
    d1 == d0 ||
    ("neuron" in d1.attr && IsNeuron(AttrString(d1.attr["neuron"])) &&
     d1 == d0.(attr := d0.attr["neuron" := d1.attr["neuron"]]))
  }

  /** Folding twice is folding once, with the later neuron. */
  lemma NeuronFoldedTrans(d0: NodeDef, d1: NodeDef, d2: NodeDef)
    requires NeuronFolded(d0, d1) && NeuronFolded(d1, d2)
    ensures NeuronFolded(d0, d2)
  {
    if d1 != d0 && d2 != d1 {
      assert d0.attr["neuron" := d1.attr["neuron"]]["neuron" := d2.attr["neuron"]] == d0.attr["neuron" := d2.attr["neuron"]];
    }
  }

  /** One visit of `TFConvOptimizer`'s loop, from the graph `s0` to the
      graph `s1`: a Conv2D or depthwise convolution with exactly one
      successor has its BiasAdd folded in (`BiasFolded`) and then its neuron
      (`NeuronAdded`); any other node leaves the graph as it is. */
  ghost predicate ConvVisit(v: Id, s0: GraphState, s1: GraphState) {
    v < |s0.defs| == |s0.outs| &&
    if IsConvolution(s0.defs[v].op) && |s0.outs[v]| == 1 then
      exists mid :: BiasFolded(v, s0, mid) && NeuronAdded(v, mid, s1)
    else
      s1 == s0
  }

  /** `TFConvOptimizer.optimize`: the pass visits the listed nodes in order
      and handles each one as `ConvVisit` states, on the graph current at
      that moment; `trace` holds those graphs. Only convolutions change
      definition, and only in their `neuron` attribute. */
  method ConvOptimizer(g: TFGraph) returns (ghost trace: seq<GraphState>)
    requires g.Valid()
    modifies g.table, g`defs
    ensures g.Valid() && g.table.Size() == old(g.table.Size()) && |g.defs| == |old(g.defs)|
    ensures Trace(g.nodes, trace, (v, s0, s1) => ConvVisit(v, s0, s1))
    ensures trace[0] == old(StateOf(g)) && trace[|g.nodes|] == StateOf(g)
    ensures forall v :: 0 <= v < |g.defs| ==>
      NeuronFolded(old(g.defs)[v], g.defs[v]) && (g.defs[v] != old(g.defs)[v] ==> IsConvolution(old(g.defs)[v].op))
  {
    var nodes := g.nodes;
    ghost var visit := (v, s0, s1) => ConvVisit(v, s0, s1);
    ghost var any := (v: Id, s: GraphState) => true;
    BoundedIsBoundedAt(nodes, |g.defs|);
    trace := [StateOf(g)];
    for i := 0 to |nodes|
      invariant g.Valid() && g.nodes == nodes && |g.defs| == |old(g.defs)| && g.table.Size() == old(g.table.Size())
      invariant Trace(nodes[..i], trace, visit) && trace[0] == old(StateOf(g)) && trace[i] == StateOf(g)
      invariant forall v :: 0 <= v < |g.defs| ==>
        NeuronFolded(old(g.defs)[v], g.defs[v]) && (g.defs[v] != old(g.defs)[v] ==> IsConvolution(old(g.defs)[v].op))
    {
      var v := nodes[i];
      ghost var s0 := StateOf(g);
      if IsConvolution(g.defs[v].op) && |g.table.edgeOut[v]| == 1 {
        FoldBias(g.table, g.defs, v);
        ghost var defs1 := g.defs;
        ghost var mid := StateOf(g);
        AddNeuronIfThere(g, v);
        assert BiasFolded(v, s0, mid) && NeuronAdded(v, mid, StateOf(g));
        forall u | 0 <= u < |g.defs|
          ensures NeuronFolded(old(g.defs)[u], g.defs[u]) && (g.defs[u] != old(g.defs)[u] ==> IsConvolution(old(g.defs)[u].op))
        {
          if u == v && g.defs != defs1 {
            NeuronFoldedTrans(old(g.defs)[u], defs1[u], g.defs[u]);
          }
        }
      }
      assert visit(v, s0, StateOf(g));
      TracePush(nodes, trace, visit, any, i, StateOf(g));
      trace := trace + [StateOf(g)];
    }
    assert nodes[..|nodes|] == nodes;
  }

  // ---------------------------------------------------------------------
  // TFConvDilationOptimizer

  predicate IsSpaceToBatchDef(def: NodeDef) { def.op == TFNames.SpaceToBatch }
  predicate IsBatchToSpaceDef(def: NodeDef) { def.op == TFNames.BatchToSpace }

  /** The nodes `TFConvDilationOptimizer` dissolves and the Consts feeding them. */
  predicate IsDilationPartDef(def: NodeDef) {
    def.op == TFNames.Const || def.op == TFNames.SpaceToBatch || def.op == TFNames.BatchToSpace
  }

  /** For a convolution with incoming list `ins` and outgoing list `outs`:
      the first SpaceToBatch input and the only successor, when there is
      exactly one and it is a BatchToSpace. */
  function DilationOf(ins: seq<Id>, outs: seq<Id>, defs: seq<NodeDef>): (r: Option<(Id, Id)>)
    ensures r.Some? <==>
      FirstWhere(ins, defs, IsSpaceToBatchDef).Some? && |outs| == 1 && Picked(outs[0], defs, IsBatchToSpaceDef)
    ensures r.Some? ==>
      r.value.0 in ins && Picked(r.value.0, defs, IsSpaceToBatchDef) &&
      r.value.1 == outs[0] && Picked(r.value.1, defs, IsBatchToSpaceDef)
  {
    match FirstWhere(ins, defs, IsSpaceToBatchDef)
    case None => None
    case Some(stb) =>
      if |outs| == 1 && Picked(outs[0], defs, IsBatchToSpaceDef) then Some((stb, outs[0])) else None
  }

  /** `x`'s Const inputs are stripped (in incoming order), then `x` is
      removed from the graph, its other predecessors linked to its
      successors. `loopFree` records that `x` was not its own predecessor
      at its removal, which is whether it was its own predecessor before.
      The only entries gained link a former predecessor of `x` to a former
      successor of `x`. */
  method DropWithConsts(t: NodeTable, defs: seq<NodeDef>, x: Id) returns (ghost loopFree: bool)
    requires t.Valid() && t.Size() == |defs| && t.Has(x) && !IsConstDef(defs[x])
    modifies t
    ensures t.Valid() && t.Size() == old(t.Size())
    ensures t.IsLonely(x)
    ensures var gone := Selected(defs, IsConstDef) + {x};
      (forall p, s :: p in old(t.edgeIn[x]) && s in old(t.edgeOut[x]) && p !in gone && s !in gone ==> p in t.edgeIn[s]) &&
      Kept(old(t.edgeIn), t.edgeIn, gone) && Kept(old(t.edgeOut), t.edgeOut, gone)
    ensures GainsOnly(old(TablesOf(t)), TablesOf(t), old(t.edgeIn[x]), old(t.edgeOut[x]))
    ensures loopFree <==> x !in old(t.edgeIn[x])
    ensures old(t.WellFormed()) && loopFree ==>
      t.WellFormed() &&
      (forall c :: c in old(t.edgeIn[x]) && Picked(c, defs, IsConstDef) ==> t.IsLonely(c)) &&
      (forall v :: 0 <= v < t.Size() && old(t.IsLonely(v)) ==> t.IsLonely(v))
  {
    ghost var consts := Selected(defs, IsConstDef);
    ghost var gone := consts + {x};
    ghost var wf0 := t.WellFormed();
    var incoming := t.edgeIn[x];
    StripWhere(t, incoming, defs, IsConstDef);
    ghost var in1, out1 := t.edgeIn, t.edgeOut;
    assert x !in consts;
    assert x in in1[x] <==> x in old(t.edgeIn[x]);
    loopFree := x !in t.edgeIn[x];
    t.RemoveFromGraph(x);
    ShrunkRemovedGains(x, old(TablesOf(t)), Tables(in1, out1), TablesOf(t));
    KeptTrans(old(t.edgeIn), old(t.edgeIn), in1, gone, consts);
    KeptTrans(old(t.edgeOut), old(t.edgeOut), out1, gone, consts);
    KeptStep(old(t.edgeIn), in1, t.edgeIn, gone, x);
    assert KeepsOthers(out1, t.edgeOut, x);
    KeptStep(old(t.edgeOut), out1, t.edgeOut, gone, x);
    forall p, s | p in old(t.edgeIn[x]) && s in old(t.edgeOut[x]) && p !in gone && s !in gone
      ensures p in t.edgeIn[s]
    {
      assert p in in1[x] && s in out1[x];
    }
    if wf0 && loopFree {
      forall v | 0 <= v < t.Size() && in1[v] == [] && out1[v] == [] ensures t.IsLonely(v) {
        LonelyStaysLonely(x, v, in1, out1, t.edgeIn, t.edgeOut);
      }
    }
  }

  /** `attr["dilations"]?.list.i[1] = x; attr["dilations"]?.list.i[2] = y`:
      the value becomes `d0`'s dilation list with entries 1 and 2 replaced. */
  ghost predicate Redilated(d0: NodeDef, d1: NodeDef) {
    d1 == d0 ||
    ("dilations" in d0.attr && "dilations" in d1.attr && d1.attr["dilations"].IntListAttr? &&
     d1 == d0.(attr := d0.attr["dilations" := d1.attr["dilations"]]) &&
     var l0, l1 := AttrInts(d0.attr["dilations"]), AttrInts(d1.attr["dilations"]);
     |l1| == |l0| >= 3 && forall k :: 0 <= k < |l0| && k != 1 && k != 2 ==> l1[k] == l0[k])
  }

  /** Setting the dilations twice is setting them once, with the later values. */
  lemma RedilatedTrans(d0: NodeDef, d1: NodeDef, d2: NodeDef)
    requires Redilated(d0, d1) && Redilated(d1, d2)
    ensures Redilated(d0, d2)
  {
    if d1 != d0 && d2 != d1 {
      assert d0.attr["dilations" := d1.attr["dilations"]]["dilations" := d2.attr["dilations"]] ==
        d0.attr["dilations" := d2.attr["dilations"]];
    }
  }

  /** Setting entries 1 and 2 of the `dilations` list: nothing happens
      without the attribute; a list shorter than three entries (a value of
      another kind reads as the empty list) traps. */
  function WithDilations(def: NodeDef, x: int, y: int): (r: Result<NodeDef>)
    ensures "dilations" !in def.attr ==> r == Success(def)
    ensures "dilations" in def.attr ==> (r.Failure? <==> |AttrInts(def.attr["dilations"])| < 3)
    ensures r.Success? ==> Redilated(def, r.value)
    ensures r.Success? && "dilations" in def.attr ==>
      AttrInts(r.value.attr["dilations"])[1] == x && AttrInts(r.value.attr["dilations"])[2] == y
  {
    if "dilations" !in def.attr then Success(def)
    else
      var list := AttrInts(def.attr["dilations"]);
      if |list| < 3 then Failure("Index out of range")
      else Success(def.(attr := def.attr["dilations" := IntListAttr(list[1 := x][2 := y])]))
  }

  /** A Const named `…/block_shape`. */
  predicate IsBlockShapeDef(def: NodeDef) {
    def.op == TFNames.Const && EndsWith(def.name, "/block_shape")
  }

  /** The block shape among the incoming nodes `ins` of a SpaceToBatch: the
      first `…/block_shape` Const, when its tensor holds exactly two 32-bit
      integers. */
  function BlockShape(ins: seq<Id>, defs: seq<NodeDef>): (r: Option<(int, int)>)
    ensures var b := FirstWhere(ins, defs, IsBlockShapeDef);
      r.Some? <==> b.Some? && ValueData(defs[b.value]).Some? && |Int32s(ValueData(defs[b.value]).value)| == 2
    ensures var b := FirstWhere(ins, defs, IsBlockShapeDef);
      r.Some? ==> Int32s(ValueData(defs[b.value]).value) == [r.value.0, r.value.1]
  {
    match FirstWhere(ins, defs, IsBlockShapeDef)
    case None => None
    case Some(b) =>
      match ValueData(defs[b])
      case None => None
      case Some(bytes) =>
        var shape := Int32s(bytes);
        if |shape| == 2 then Some((shape[0], shape[1])) else None
  }

  /** A block shape stored as the bytes of two 32-bit integers is read
      back as those integers. */
  lemma BlockShapeOfEncoding(ins: seq<Id>, defs: seq<NodeDef>, b: Id, x: int, y: int)
    requires FirstWhere(ins, defs, IsBlockShapeDef) == Some(b)
    requires -0x8000_0000 <= x < 0x8000_0000 && -0x8000_0000 <= y < 0x8000_0000
    requires "value" in defs[b].attr && AttrTensor(defs[b].attr["value"]).tensorContent == Int32sBytes([x, y])
    ensures BlockShape(ins, defs) == Some((x, y))
  {
    Int32sRoundTrip([x, y]);
  }

  /** One convolution `node` of `TFConvDilationOptimizer.optimize`, from
      the graph `s0` to the graph `s1`, when it does not trap: with a
      SpaceToBatch input `stb` and a BatchToSpace as its only successor
      `bts`, only the convolution's definition changes, and only in its
      dilations; `stb` ends lonely and the two are dissolved (`Dissolved`)
      together with the Const nodes. Without the pair nothing changes. */
  ghost predicate DilationFolded(node: Id, s0: GraphState, s1: GraphState) {
    node < |s0.defs| == |s0.ins| == |s0.outs| && |s1.defs| == |s0.defs| &&
    (forall u :: 0 <= u < |s1.defs| && u != node ==> s1.defs[u] == s0.defs[u]) &&
    var d := DilationOf(s0.ins[node], s0.outs[node], s0.defs);
    if d.None? then
      s1 == s0
    else
      var (stb, bts) := d.value;
      |s1.ins| == |s1.outs| == |s0.ins| && Redilated(s0.defs[node], s1.defs[node]) &&
      s1.ins[stb] == [] && s1.outs[stb] == [] && Bounded(s0.outs[bts], |s0.ins|) &&
      Dissolved(s0.ins, s0.outs, s1.ins, s1.outs, Selected(s0.defs, IsConstDef) + {stb, bts}, node, stb, bts)
  }

  /** The visit of the convolution `node` in the graph `s` traps: it has the
      SpaceToBatch/BatchToSpace pair, and a `dilations` list shorter than
      three entries. */
  ghost predicate DilationTraps(node: Id, s: GraphState) {
    node < |s.defs| == |s.ins| == |s.outs| && IsConvolution(s.defs[node].op) &&
    DilationOf(s.ins[node], s.outs[node], s.defs).Some? &&
    "dilations" in s.defs[node].attr && |AttrInts(s.defs[node].attr["dilations"])| < 3
  }

  /** Neither node the visit of `node` removes is its own predecessor when
      removed: the BatchToSpace is not its own predecessor, and the
      SpaceToBatch is neither its own predecessor nor both a predecessor and
      a successor of the BatchToSpace (removing which would link it to
      itself). */
  ghost predicate DilationClean(node: Id, s: GraphState) {
    node < |s.defs| == |s.ins| == |s.outs| && IsConvolution(s.defs[node].op) &&
    DilationOf(s.ins[node], s.outs[node], s.defs).Some? ==>
      var (stb, bts) := DilationOf(s.ins[node], s.outs[node], s.defs).value;
      bts !in s.ins[bts] && stb !in s.ins[stb] && !Links(stb, stb, s.ins[bts], s.outs[bts])
  }

  /** One convolution of `TFConvDilationOptimizer.optimize`: the
      BatchToSpace after it is removed with its Const inputs; the dilations
      are set from the SpaceToBatch's block shape, as its Const inputs are
      after that removal; then the SpaceToBatch is removed with its Const
      inputs. `def` is the convolution's new definition. `trapped` reports
      a dilation list too short to set; otherwise the result is as
      `DilationFolded` states, and a well-formed graph stays well-formed
      when `DilationClean` held. */
  method FoldDilation(t: NodeTable, defs: seq<NodeDef>, node: Id) returns (trapped: bool, def: NodeDef)
    requires t.Valid() && t.Size() == |defs| && t.Has(node) && IsConvolution(defs[node].op)
    modifies t
    ensures t.Valid() && t.Size() == old(t.Size())
    ensures trapped ==> DilationTraps(node, GraphState(old(t.edgeIn), old(t.edgeOut), defs))
    ensures !trapped ==>
      DilationFolded(node, GraphState(old(t.edgeIn), old(t.edgeOut), defs), GraphState(t.edgeIn, t.edgeOut, defs[node := def]))
    ensures !trapped && old(t.WellFormed()) && DilationClean(node, GraphState(old(t.edgeIn), old(t.edgeOut), defs)) ==>
      t.WellFormed() &&
      var d := DilationOf(old(t.edgeIn[node]), old(t.edgeOut[node]), defs);
      d.Some? ==> t.IsLonely(d.value.1)
  {
    var d := DilationOf(t.edgeIn[node], t.edgeOut[node], defs);
    trapped, def := false, defs[node];
    if d.Some? {
      var (stb, bts) := d.value;
      ghost var in0, out0 := t.edgeIn, t.edgeOut;
      ghost var clean := DilationClean(node, GraphState(in0, out0, defs));
      var clean1 := DropWithConsts(t, defs, bts);
      ghost var in1, out1 := t.edgeIn, t.edgeOut;
      var shape := BlockShape(t.edgeIn[stb], defs);
      if shape.Some? {
        var r := WithDilations(def, shape.value.0, shape.value.1);
        if r.Failure? {
          trapped := true;
          return;
        }
        def := r.value;
      }
      assert stb in in1[stb] ==> stb in in0[stb] || Links(stb, stb, in0[bts], out0[bts]);
      var clean2 := DropWithConsts(t, defs, stb);
      DilationFacts(in0, out0, in1, out1, t.edgeIn, t.edgeOut, Selected(defs, IsConstDef), node, stb, bts);
      assert defs[node := def][node] == def;
    }
  }

  /** The lists `in1`/`out1` after dissolving the SpaceToBatch `stb` and
      the BatchToSpace `bts` around the convolution `node`: the edges
      between the nodes outside `gone` are kept, the convolution feeds the
      BatchToSpace's successors and is fed by the SpaceToBatch's
      predecessors (where the convolution was linked to them both ways). */
  ghost predicate Dissolved(in0: seq<seq<Id>>, out0: seq<seq<Id>>, in1: seq<seq<Id>>, out1: seq<seq<Id>>,
                            gone: set<Id>, node: Id, stb: Id, bts: Id)
    requires node < |in1| && stb < |in0| && bts < |in0| && |out0| == |in0| && Bounded(out0[bts], |in1|)
  {
    Kept(in0, in1, gone) && Kept(out0, out1, gone) &&
    (forall s :: s in out0[bts] && s !in gone && node in in0[bts] ==> node in in1[s]) &&
    (forall p :: p in in0[stb] && p !in gone && node in out0[stb] ==> p in in1[node])
  }

  /** The lists through the two removals of `FoldDilation`. */
  lemma DilationFacts(in0: seq<seq<Id>>, out0: seq<seq<Id>>, in1: seq<seq<Id>>, out1: seq<seq<Id>>,
                      in2: seq<seq<Id>>, out2: seq<seq<Id>>, consts: set<Id>, node: Id, stb: Id, bts: Id)
    requires node < |in0| && stb < |in0| && bts < |in0| && node !in consts && node != stb && node != bts
    requires stb !in consts && stb != bts && |out0| == |in0|
    requires Bounded(out0[bts], |in0|) && Bounded(in0[stb], |in0|)
    requires Kept(in0, in1, consts + {bts}) && Kept(out0, out1, consts + {bts})
    requires Kept(in1, in2, consts + {stb}) && Kept(out1, out2, consts + {stb})
    requires forall p, s :: p in in0[bts] && s in out0[bts] && p !in consts + {bts} && s !in consts + {bts} ==> p in in1[s]
    requires Bounded(out1[stb], |in0|)
    requires forall p, s :: p in in1[stb] && s in out1[stb] && p !in consts + {stb} && s !in consts + {stb} ==> p in in2[s]
    ensures Dissolved(in0, out0, in2, out2, consts + {stb, bts}, node, stb, bts)
  {
    var gone := consts + {stb, bts};
    KeptTrans(in0, in0, in1, gone, consts + {bts});
    KeptTrans(in0, in1, in2, gone, consts + {stb});
    KeptTrans(out0, out0, out1, gone, consts + {bts});
    KeptTrans(out0, out1, out2, gone, consts + {stb});
    forall p | p in in0[stb] && p !in gone && node in out0[stb] ensures p in in2[node] {
      assert stb !in consts + {bts} && node !in consts + {bts} && p !in consts + {bts};
      assert p in in1[stb];
      assert node in out1[stb];
    }
  }

  /** Every definition of `defs1` is its counterpart in `defs0` with new
      dilations, and only convolutions changed. */
  ghost predicate AllRedilated(defs0: seq<NodeDef>, defs1: seq<NodeDef>) {
    |defs1| == |defs0| &&
    forall v :: 0 <= v < |defs1| ==>
      Redilated(defs0[v], defs1[v]) && (defs1[v] != defs0[v] ==> IsConvolution(defs0[v].op))
  }

  /** One more convolution with new dilations. */
  lemma AllRedilatedStep(defs0: seq<NodeDef>, defs1: seq<NodeDef>, defs2: seq<NodeDef>, node: Id)
    requires AllRedilated(defs0, defs1) && node < |defs1| == |defs2| && IsConvolution(defs1[node].op)
    requires forall v :: 0 <= v < |defs2| && v != node ==> defs2[v] == defs1[v]
    requires Redilated(defs1[node], defs2[node])
    ensures AllRedilated(defs0, defs2)
  {
    RedilatedTrans(defs0[node], defs1[node], defs2[node]);
  }

  /** What one step removes lies among the SpaceToBatch, BatchToSpace and
      Const nodes of the original definitions. */
  lemma DilationPartsGone(defs0: seq<NodeDef>, defs1: seq<NodeDef>, stb: Id, bts: Id)
    requires AllRedilated(defs0, defs1)
    requires Picked(stb, defs1, IsSpaceToBatchDef) && Picked(bts, defs1, IsBatchToSpaceDef)
    ensures Selected(defs1, IsConstDef) + {stb, bts} <= Selected(defs0, IsDilationPartDef)
  {
    assert forall u :: 0 <= u < |defs1| ==> defs1[u].op == defs0[u].op;
  }

  /** New dilations change no node's operation, so the same nodes are
      SpaceToBatch, BatchToSpace and Const nodes. */
  lemma SelectedRedilated(defs0: seq<NodeDef>, defs1: seq<NodeDef>)
    requires AllRedilated(defs0, defs1)
    ensures Selected(defs1, IsDilationPartDef) == Selected(defs0, IsDilationPartDef)
  {
    assert forall u :: 0 <= u < |defs1| ==> defs1[u].op == defs0[u].op;
  }

  /** New dilations after new dilations. */
  lemma AllRedilatedTrans(defs0: seq<NodeDef>, defs1: seq<NodeDef>, defs2: seq<NodeDef>)
    requires AllRedilated(defs0, defs1) && AllRedilated(defs1, defs2)
    ensures AllRedilated(defs0, defs2)
  {
    forall v | 0 <= v < |defs2| ensures Redilated(defs0[v], defs2[v]) {
      RedilatedTrans(defs0[v], defs1[v], defs2[v]);
    }
  }

  /** One visit of `TFConvDilationOptimizer`'s loop that does not trap, from
      the graph `s0` to the graph `s1`: a convolution is handled as
      `DilationFolded` states; any other node leaves the graph as it is. */
  ghost predicate DilationVisit(v: Id, s0: GraphState, s1: GraphState) {
    v < |s0.defs| &&
    if IsConvolution(s0.defs[v].op) then DilationFolded(v, s0, s1) else s1 == s0
  }

  /** One visit of `TFConvDilationOptimizer.optimize`'s loop, on the node
      `v`: it traps as `DilationTraps` states, or else it is as
      `DilationVisit` states; only convolutions change definition, and only
      in their dilations; the edges between nodes other than SpaceToBatch,
      BatchToSpace and Const nodes are kept; and a well-formed graph stays
      well-formed when `DilationClean` held. */
  method DilationStep(g: TFGraph, v: Id) returns (trapped: bool)
    requires g.Valid() && g.table.Has(v)
    modifies g.table, g`defs
    ensures g.Valid() && g.nodes == old(g.nodes) && g.table.Size() == old(g.table.Size()) && |g.defs| == |old(g.defs)|
    ensures trapped ==> DilationTraps(v, old(StateOf(g)))
    ensures !trapped ==> DilationVisit(v, old(StateOf(g)), StateOf(g)) && AllRedilated(old(g.defs), g.defs)
    ensures !trapped ==>
      Kept(old(g.table.edgeIn), g.table.edgeIn, Selected(old(g.defs), IsDilationPartDef)) &&
      Kept(old(g.table.edgeOut), g.table.edgeOut, Selected(old(g.defs), IsDilationPartDef))
    ensures !trapped && old(g.table.WellFormed()) && DilationClean(v, old(StateOf(g))) ==> g.table.WellFormed()
  {
    trapped := false;
    if IsConvolution(g.defs[v].op) {
      ghost var defs1 := g.defs;
      ghost var d := DilationOf(g.table.edgeIn[v], g.table.edgeOut[v], defs1);
      var def;
      trapped, def := FoldDilation(g.table, g.defs, v);
      if trapped {
        return;
      }
      g.defs := g.defs[v := def];
      ghost var gone := Selected(defs1, IsDilationPartDef);
      if d.Some? {
        var (stb, bts) := d.value;
        DilationPartsGone(defs1, defs1, stb, bts);
        KeptTrans(old(g.table.edgeIn), old(g.table.edgeIn), g.table.edgeIn, gone, Selected(defs1, IsConstDef) + {stb, bts});
        KeptTrans(old(g.table.edgeOut), old(g.table.edgeOut), g.table.edgeOut, gone, Selected(defs1, IsConstDef) + {stb, bts});
      }
      AllRedilatedStep(defs1, defs1, g.defs, v);
    }
  }

  /** `TFConvDilationOptimizer.optimize`: the pass visits the listed nodes
      in order and handles each one as `DilationVisit` states, on the graph
      current at that moment; `trace` holds those graphs. When a visit
      traps (`trapped`), the pass ends there: `trace` ends with the graph
      that visit started from, and the visited node is one `DilationTraps`
      describes. Unless the pass trapped, only convolutions change
      definition, and only in their dilations; the edges between nodes
      other than SpaceToBatch, BatchToSpace and Const nodes are kept; and
      a well-formed graph stays well-formed when, as `loopFree` says, every
      visit was one `DilationClean` describes. */
  method ConvDilationOptimizer(g: TFGraph) returns (trapped: bool, ghost trace: seq<GraphState>, ghost loopFree: bool)
    requires g.Valid()
    modifies g.table, g`defs
    ensures g.Valid() && g.table.Size() == old(g.table.Size()) && |g.defs| == |old(g.defs)|
    ensures 1 <= |trace| <= |g.nodes| + 1 && trace[0] == old(StateOf(g))
    ensures Trace(g.nodes[..|trace| - 1], trace, (v, s0, s1) => DilationVisit(v, s0, s1))
    ensures loopFree <==> EachVisit(g.nodes[..|trace| - 1], trace, (v, s) => DilationClean(v, s))
    ensures trapped ==> |trace| <= |g.nodes| && DilationTraps(g.nodes[|trace| - 1], trace[|trace| - 1])
    ensures !trapped ==> |trace| == |g.nodes| + 1 && trace[|g.nodes|] == StateOf(g)
    ensures !trapped ==> AllRedilated(old(g.defs), g.defs)
    ensures !trapped ==>
      Kept(old(g.table.edgeIn), g.table.edgeIn, Selected(old(g.defs), IsDilationPartDef)) &&
      Kept(old(g.table.edgeOut), g.table.edgeOut, Selected(old(g.defs), IsDilationPartDef))
    ensures !trapped && old(g.table.WellFormed()) && loopFree ==> g.table.WellFormed()
  {
    var nodes := g.nodes;
    ghost var gone := Selected(g.defs, IsDilationPartDef);
    ghost var visit := (v, s0, s1) => DilationVisit(v, s0, s1);
    ghost var clean := (v, s) => DilationClean(v, s);
    BoundedIsBoundedAt(nodes, |g.defs|);
    trapped, loopFree := false, true;
    trace := [StateOf(g)];
    for i := 0 to |nodes|
      invariant g.Valid() && g.nodes == nodes && |g.defs| == |old(g.defs)| && g.table.Size() == old(g.table.Size())
      invariant Trace(nodes[..i], trace, visit) && trace[0] == old(StateOf(g)) && trace[i] == StateOf(g)
      invariant loopFree <==> EachVisit(nodes[..i], trace, clean)
      invariant AllRedilated(old(g.defs), g.defs)
      invariant Kept(old(g.table.edgeIn), g.table.edgeIn, gone) && Kept(old(g.table.edgeOut), g.table.edgeOut, gone)
      invariant old(g.table.WellFormed()) && loopFree ==> g.table.WellFormed()
    {
      var v := nodes[i];
      ghost var s0 := StateOf(g);
      ghost var in1, out1 := g.table.edgeIn, g.table.edgeOut;
      SelectedRedilated(old(g.defs), g.defs);
      var stop := DilationStep(g, v);
      if stop {
        trapped := true;
        return;
      }
      KeptTrans(old(g.table.edgeIn), in1, g.table.edgeIn, gone, gone);
      KeptTrans(old(g.table.edgeOut), out1, g.table.edgeOut, gone, gone);
      AllRedilatedTrans(old(g.defs), s0.defs, g.defs);
      loopFree := loopFree && DilationClean(v, s0);
      TracePush(nodes, trace, visit, clean, i, StateOf(g));
      trace := trace + [StateOf(g)];
    }
    assert nodes[..|nodes|] == nodes;
  }

  // ---------------------------------------------------------------------
  // TFDenseSubstitution

  predicate IsDataDef(def: NodeDef) { !IsVariableOrConst(def.op) }
  predicate IsNonConstDef(def: NodeDef) { def.op != TFNames.Const }

  /** The nodes `TFDenseSubstitution` joins around a MatMul. */
  datatype DenseParts = DenseParts(add: Id, weights: Id, input: Id)

  /** For a MatMul with incoming list `ins` and outgoing list `outs`: the
      first BiasAdd or Add successor, the first Variable or Const input (the
      weights) and the first other input (the data), when all three exist. */
  function DenseOf(ins: seq<Id>, outs: seq<Id>, defs: seq<NodeDef>): (r: Option<DenseParts>)
    ensures r.None? <==>
      FirstWhere(outs, defs, IsAdditionDef).None? || FirstWhere(ins, defs, IsWeightDef).None? ||
      FirstWhere(ins, defs, IsDataDef).None?
    ensures r.Some? ==>
      r.value.add in outs && Picked(r.value.add, defs, IsAdditionDef) &&
      r.value.weights in ins && Picked(r.value.weights, defs, IsWeightDef) &&
      r.value.input in ins && Picked(r.value.input, defs, IsDataDef)
  {
    match (FirstWhere(outs, defs, IsAdditionDef), FirstWhere(ins, defs, IsWeightDef), FirstWhere(ins, defs, IsDataDef))
    case (Some(a), Some(w), Some(i)) => Some(DenseParts(a, w, i))
    case _ => None
  }

  /** Where the Dense node takes its data from: when the data input is a
      Reshape with a non-Const input, that input (and the Reshape is
      dropped); otherwise the data input itself. */
  function DataSource(ins: seq<seq<Id>>, defs: seq<NodeDef>, input: Id): (r: (Id, bool))
    requires input < |ins|
    ensures r.1 <==> Picked(input, defs, IsReshapeDef) && FirstWhere(ins[input], defs, IsNonConstDef).Some?
    ensures r.1 ==> r.0 in ins[input] && Picked(r.0, defs, IsNonConstDef)
    ensures !r.1 ==> r.0 == input
  {
    if Picked(input, defs, IsReshapeDef) && FirstWhere(ins[input], defs, IsNonConstDef).Some? then
      (FirstWhere(ins[input], defs, IsNonConstDef).value, true)
    else (input, false)
  }

  predicate IsReshapeDef(def: NodeDef) { def.op == TFNames.Reshape }

  /** The edges of one substitution: the add gains the weights and the data
      source as incoming nodes, then the Reshape (when it is bypassed) and
      the MatMul are stripped. */
  method LinkDense(t: NodeTable, node: Id, a: Id, w: Id, i: Id, src: Id, viaReshape: bool)
    requires t.Valid() && t.Has(node) && t.Has(a) && t.Has(w) && t.Has(i) && t.Has(src)
    requires a != node && w != node && (viaReshape ==> a != i && w != i)
    modifies t
    ensures t.Valid() && t.Size() == old(t.Size())
    ensures var gone := if viaReshape then {node, i} else {node};
      t.IsLonely(node) && (viaReshape ==> t.IsLonely(i)) &&
      w in t.edgeIn[a] && (src !in gone ==> src in t.edgeIn[a]) &&
      Kept(old(t.edgeIn), t.edgeIn, gone) && Kept(old(t.edgeOut), t.edgeOut, gone)
    ensures old(t.WellFormed()) ==> t.WellFormed()
  {
    ghost var gone := if viaReshape then {node, i} else {node};
    AddEdge(t, a, w);
    AddEdge(t, a, src);
    ghost var in1, out1 := t.edgeIn, t.edgeOut;
    assert Kept(old(t.edgeIn), in1, gone) && Kept(old(t.edgeOut), out1, gone);
    if viaReshape {
      t.Strip(i);
      KeptStep(old(t.edgeIn), in1, t.edgeIn, gone, i);
      KeptStep(old(t.edgeOut), out1, t.edgeOut, gone, i);
    }
    ghost var in2, out2 := t.edgeIn, t.edgeOut;
    t.Strip(node);
    KeptStep(old(t.edgeIn), in2, t.edgeIn, gone, node);
    KeptStep(old(t.edgeOut), out2, t.edgeOut, gone, node);
  }

  /** One MatMul `node` of `TFDenseSubstitution.optimize`, before neuron
      folding, from the graph `s0` to the graph `s1`: with the three parts
      found, the BiasAdd or Add becomes a `Dense` node with the weights and
      the data source as incoming nodes, a Reshape bypassed in front of the
      data and the MatMul end lonely, and the edges between the other nodes
      are kept. Without the three parts nothing changes. */
  ghost predicate DenseSubstituted(node: Id, s0: GraphState, s1: GraphState) {
    node < |s0.defs| == |s0.ins| == |s0.outs| &&
    var m := DenseOf(s0.ins[node], s0.outs[node], s0.defs);
    if m.None? then
      s1 == s0
    else
      var DenseParts(a, w, i) := m.value;
      var (src, viaReshape) := DataSource(s0.ins, s0.defs, i);
      var gone := if viaReshape then {node, i} else {node};
      |s1.ins| == |s1.outs| == |s0.ins| &&
      s1.defs == s0.defs[a := s0.defs[a].(op := TFNames.Dense)] &&
      s1.ins[node] == [] && s1.outs[node] == [] && (viaReshape ==> s1.ins[i] == [] && s1.outs[i] == []) &&
      w in s1.ins[a] && (src !in gone ==> src in s1.ins[a]) &&
      Kept(s0.ins, s1.ins, gone) && Kept(s0.outs, s1.outs, gone)
  }

  /** One MatMul of `TFDenseSubstitution.optimize`, before neuron folding,
      as `DenseSubstituted` states; `add` is the node that became `Dense`. */
  method SubstituteDense(g: TFGraph, node: Id) returns (add: Option<Id>)
    requires g.Valid() && g.table.Has(node) && g.defs[node].op == MatMul
    modifies g.table, g`defs
    ensures g.Valid() && g.table.Size() == old(g.table.Size())
    ensures DenseSubstituted(node, old(StateOf(g)), StateOf(g))
    ensures var m := DenseOf(old(g.table.edgeIn[node]), old(g.table.edgeOut[node]), old(g.defs));
      (add.Some? <==> m.Some?) && (m.Some? ==> add.value == m.value.add)
    ensures old(g.table.WellFormed()) ==> g.table.WellFormed()
  {
    var t := g.table;
    var m := DenseOf(t.edgeIn[node], t.edgeOut[node], g.defs);
    add := None;
    if m.Some? {
      var DenseParts(a, w, i) := m.value;
      var (src, viaReshape) := DataSource(t.edgeIn, g.defs, i);
      g.defs := g.defs[a := g.defs[a].(op := TFNames.Dense)];
      add := Some(a);
      LinkDense(t, node, a, w, i, src, viaReshape);
    }
  }

  /** One visit of `TFDenseSubstitution`'s loop, from the graph `s0` to the
      graph `s1`: a MatMul is substituted (`DenseSubstituted`) and, when its
      three parts were found, the neuron after the new `Dense` node is
      folded in (`NeuronAdded`); any other node leaves the graph as it is. */
  ghost predicate DenseVisit(v: Id, s0: GraphState, s1: GraphState) {
    v < |s0.defs| == |s0.ins| == |s0.outs| &&
    if s0.defs[v].op == MatMul then
      exists mid :: DenseSubstituted(v, s0, mid) &&
        var m := DenseOf(s0.ins[v], s0.outs[v], s0.defs);
        if m.Some? then NeuronAdded(m.value.add, mid, s1) else s1 == mid
    else
      s1 == s0
  }

  /** Every definition of `defs1` is its counterpart in `defs0`, or a
      BiasAdd or Add of `defs0` turned `Dense`, with its `neuron` attribute
      possibly set. */
  ghost predicate DenseChanged(defs0: seq<NodeDef>, defs1: seq<NodeDef>) {
    |defs1| == |defs0| &&
    forall v :: 0 <= v < |defs1| ==>
      defs1[v] == defs0[v] || (IsAddition(defs0[v].op) && NeuronFolded(defs0[v].(op := TFNames.Dense), defs1[v]))
  }

  /** A node turned `Dense` is no longer an addition, so it changes once. */
  lemma DenseChangedTrans(defs0: seq<NodeDef>, defs1: seq<NodeDef>, defs2: seq<NodeDef>)
    requires DenseChanged(defs0, defs1) && DenseChanged(defs1, defs2)
    ensures DenseChanged(defs0, defs2)
  {
  }

  /** One visit of `TFDenseSubstitution`'s loop, as `DenseVisit` states. */
  method DenseStep(g: TFGraph, v: Id)
    requires g.Valid() && g.table.Has(v)
    modifies g.table, g`defs
    ensures g.Valid() && g.table.Size() == old(g.table.Size())
    ensures DenseVisit(v, old(StateOf(g)), StateOf(g))
    ensures DenseChanged(old(g.defs), g.defs)
    ensures old(g.table.WellFormed()) ==> g.table.WellFormed()
  {
    ghost var s0 := StateOf(g);
    if g.defs[v].op == MatMul {
      var add := SubstituteDense(g, v);
      ghost var mid := StateOf(g);
      if add.Some? {
        var a := add.value;
        ghost var defs1 := g.defs;
        AddNeuronIfThere(g, a);
        if g.defs != defs1 {
          NeuronFoldedTrans(old(g.defs)[a].(op := TFNames.Dense), defs1[a], g.defs[a]);
        }
      }
      assert DenseSubstituted(v, s0, mid);
    }
  }

  /** `TFDenseSubstitution.optimize`: the pass visits the listed nodes in
      order and handles each one as `DenseVisit` states, on the graph
      current at that moment; `trace` holds those graphs. Only BiasAdd and
      Add nodes change definition: their op becomes `Dense` and their
      `neuron` attribute may be set. A well-formed graph stays well-formed. */
  method DenseSubstitution(g: TFGraph) returns (ghost trace: seq<GraphState>)
    requires g.Valid()
    modifies g.table, g`defs
    ensures g.Valid() && g.table.Size() == old(g.table.Size())
    ensures Trace(g.nodes, trace, (v, s0, s1) => DenseVisit(v, s0, s1))
    ensures trace[0] == old(StateOf(g)) && trace[|g.nodes|] == StateOf(g)
    ensures DenseChanged(old(g.defs), g.defs)
    ensures old(g.table.WellFormed()) ==> g.table.WellFormed()
  {
    var nodes := g.nodes;
    ghost var visit := (v, s0, s1) => DenseVisit(v, s0, s1);
    ghost var any := (v: Id, s: GraphState) => true;
    BoundedIsBoundedAt(nodes, |g.defs|);
    trace := [StateOf(g)];
    for i := 0 to |nodes|
      invariant g.Valid() && g.nodes == nodes && g.table.Size() == old(g.table.Size())
      invariant Trace(nodes[..i], trace, visit) && trace[0] == old(StateOf(g)) && trace[i] == StateOf(g)
      invariant DenseChanged(old(g.defs), g.defs)
      invariant old(g.table.WellFormed()) ==> g.table.WellFormed()
    {
      var v := nodes[i];
      ghost var s0 := StateOf(g);
      DenseStep(g, v);
      DenseChangedTrans(old(g.defs), s0.defs, g.defs);
      TracePush(nodes, trace, visit, any, i, StateOf(g));
      trace := trace + [StateOf(g)];
    }
    assert nodes[..|nodes|] == nodes;
  }

  // ---------------------------------------------------------------------
  // TFVariableProcessor

  predicate IsAssignDef(def: NodeDef) { def.op == TFNames.Assign }
  predicate IsReadDef(def: NodeDef) { IsReadName(def.name) }

  /** Every incoming entry `in1` has beyond `in0` names a Variable or Const. */
  ghost predicate InGainsWeights(in0: seq<seq<Id>>, in1: seq<seq<Id>>, defs: seq<NodeDef>) {
    |in1| == |in0| &&
    forall v: Id, w: Id :: 0 <= v < |in1| && w in in1[v] && w !in in0[v] ==> Picked(w, defs, IsWeightDef)
  }

  /** Only the outgoing lists of Variables and Consts gained entries. */
  ghost predicate OutGainsWeights(out0: seq<seq<Id>>, out1: seq<seq<Id>>, defs: seq<NodeDef>) {
    |out1| == |out0| &&
    forall w: Id, v: Id :: 0 <= w < |out1| && v in out1[w] && v !in out0[w] ==> Picked(w, defs, IsWeightDef)
  }

  /** Linking a Variable or Const `u` into `v` gains only entries from a
      weight. */
  method AddWeightEdge(t: NodeTable, defs: seq<NodeDef>, v: Id, u: Id)
    requires t.Valid() && t.Size() == |defs| && t.Has(v) && Picked(u, defs, IsWeightDef)
    modifies t
    ensures t.Valid() && t.Size() == old(t.Size())
    ensures u in t.edgeIn[v]
    ensures GrownFrom(old(t.edgeIn), t.edgeIn) && GrownFrom(old(t.edgeOut), t.edgeOut)
    ensures InGainsWeights(old(t.edgeIn), t.edgeIn, defs) && OutGainsWeights(old(t.edgeOut), t.edgeOut, defs)
    ensures forall w :: 0 <= w < t.Size() && w != u && w != v && old(t.IsLonely(w)) ==> t.IsLonely(w)
    ensures old(t.WellFormed()) ==> t.WellFormed()
  {
    AddEdge(t, v, u);
  }

  /** The group `TFVariableProcessor` collapses around a VariableV2 with
      outgoing list `outs`: its first Assign successor, its first read
      successor and that read node's first successor. */
  function VariableGroupOf(outs: seq<Id>, outLists: seq<seq<Id>>, defs: seq<NodeDef>): (r: Option<(Id, Id, Id)>)
    ensures r.Some? <==>
      FirstWhere(outs, defs, IsAssignDef).Some? && FirstWhere(outs, defs, IsReadDef).Some? &&
      FirstWhere(outs, defs, IsReadDef).value < |outLists| && outLists[FirstWhere(outs, defs, IsReadDef).value] != []
    ensures r.Some? ==>
      var (assign, read, output) := r.value;
      assign in outs && Picked(assign, defs, IsAssignDef) && read in outs && Picked(read, defs, IsReadDef) &&
      read < |outLists| && outLists[read] != [] && output == outLists[read][0]
  {
    match (FirstWhere(outs, defs, IsAssignDef), FirstWhere(outs, defs, IsReadDef))
    case (Some(assign), Some(read)) =>
      if read < |outLists| && outLists[read] != [] then Some((assign, read, outLists[read][0])) else None
    case _ => None
  }

  /** Const → Variable → output: the Assign is stripped, the output gains
      the variable and the variable the Const. */
  method LinkConstVariable(t: NodeTable, defs: seq<NodeDef>, node: Id, assign: Id, output: Id, c: Id)
    requires t.Valid() && t.Size() == |defs| && t.Has(assign) && t.Has(output)
    requires Picked(node, defs, IsWeightDef) && Picked(c, defs, IsWeightDef)
    modifies t
    ensures t.Valid() && t.Size() == old(t.Size())
    ensures node in t.edgeIn[output] && c in t.edgeIn[node]
    ensures assign != output && assign != node && assign != c ==> t.IsLonely(assign)
    ensures forall w :: 0 <= w < t.Size() && w != output && w != node && w != c && old(t.IsLonely(w)) ==> t.IsLonely(w)
    ensures KeepsOthers(old(t.edgeIn), t.edgeIn, assign) && KeepsOthers(old(t.edgeOut), t.edgeOut, assign)
    ensures InGainsWeights(old(t.edgeIn), t.edgeIn, defs) && OutGainsWeights(old(t.edgeOut), t.edgeOut, defs)
    ensures old(t.WellFormed()) ==> t.WellFormed()
  {
    t.Strip(assign);
    AddWeightEdge(t, defs, output, node);
    AddWeightEdge(t, defs, node, c);
  }

  /** A variable without a Const initial value: the Assign forgets the
      variable as an input and is stripped recursively (to depth `fuel`);
      the output gains the variable. */
  method LinkUnsetVariable(t: NodeTable, defs: seq<NodeDef>, node: Id, assign: Id, output: Id, fuel: nat)
    requires t.Valid() && t.Size() == |defs| && t.Has(assign) && t.Has(output) && Picked(node, defs, IsWeightDef)
    modifies t
    ensures t.Valid() && t.Size() == old(t.Size())
    ensures node in t.edgeIn[output]
    ensures assign != output && assign != node ==> t.IsLonely(assign)
    ensures forall w :: 0 <= w < t.Size() && w != output && w != node && old(t.IsLonely(w)) ==> t.IsLonely(w)
    ensures InGainsWeights(old(t.edgeIn), t.edgeIn, defs) && OutGainsWeights(old(t.edgeOut), t.edgeOut, defs)
  {
    t.DeleteIncomingEdge(assign, node);
    t.StripRecursive(assign, fuel);
    AddWeightEdge(t, defs, output, node);
  }

  /** Collapsing the group of `node`, with Assign `assign`, read node
      `read` and output `output`: the read node is stripped; when the Assign
      then has a Const input (`constValue`) the Assign is stripped and the
      graph becomes Const → Variable → output; otherwise the Assign forgets
      the variable as an input, is stripped recursively (to depth `fuel`)
      and the output gains the variable as an input. */
  method CollapseVariable(t: NodeTable, defs: seq<NodeDef>, node: Id, assign: Id, read: Id, output: Id, fuel: nat)
    returns (ghost constValue: Option<Id>)
    requires t.Valid() && t.Size() == |defs| && t.Has(assign) && t.Has(read) && t.Has(output)
    requires Picked(node, defs, IsWeightDef)
    modifies t
    ensures t.Valid() && t.Size() == old(t.Size())
    ensures node in t.edgeIn[output]
    ensures read != output && read != node && (constValue.Some? ==> read != constValue.value) ==> t.IsLonely(read)
    ensures constValue.Some? ==>
      var c := constValue.value;
      c in old(t.edgeIn[assign]) && Picked(c, defs, IsConstDef) && c in t.edgeIn[node] &&
      (assign != output && assign != node && assign != c ==> t.IsLonely(assign)) &&
      Kept(old(t.edgeIn), t.edgeIn, {read, assign}) && Kept(old(t.edgeOut), t.edgeOut, {read, assign}) &&
      (old(t.WellFormed()) ==> t.WellFormed())
    ensures constValue.None? ==>
      (assign != read ==> forall u :: u in old(t.edgeIn[assign]) && u != read ==> !Picked(u, defs, IsConstDef)) &&
      (assign != output && assign != node ==> t.IsLonely(assign))
    ensures InGainsWeights(old(t.edgeIn), t.edgeIn, defs) && OutGainsWeights(old(t.edgeOut), t.edgeOut, defs)
  {
    ghost var in0, out0 := t.edgeIn, t.edgeOut;
    t.Strip(read);
    ghost var in1, out1 := t.edgeIn, t.edgeOut;
    var c := FirstWhere(t.edgeIn[assign], defs, IsConstDef);
    constValue := c;
    if c.Some? {
      LinkConstVariable(t, defs, node, assign, output, c.value);
      VariableConstFacts(in0, out0, in1, out1, t.edgeIn, t.edgeOut, read, assign);
    } else {
      if assign != read {
        forall u | u in in0[assign] && u != read ensures !Picked(u, defs, IsConstDef) {
          assert u in in1[assign];
        }
      }
      LinkUnsetVariable(t, defs, node, assign, output, fuel);
    }
    ShrunkThenWeightGains(in0, in1, t.edgeIn, out0, out1, t.edgeOut, defs);
  }

  /** Losing entries and then gaining only weight entries gains only
      weight entries. */
  lemma ShrunkThenWeightGains(in0: seq<seq<Id>>, in1: seq<seq<Id>>, in2: seq<seq<Id>>,
                              out0: seq<seq<Id>>, out1: seq<seq<Id>>, out2: seq<seq<Id>>, defs: seq<NodeDef>)
    requires Shrunk(in0, in1) && InGainsWeights(in1, in2, defs)
    requires Shrunk(out0, out1) && OutGainsWeights(out1, out2, defs)
    ensures InGainsWeights(in0, in2, defs) && OutGainsWeights(out0, out2, defs)
  {
  }

  /** The VariableV2 case of `TFVariableProcessor.optimize`: a variable
      with an Assign successor and a read successor that has a successor
      is collapsed; otherwise nothing changes. */
  method ProcessVariable(t: NodeTable, defs: seq<NodeDef>, node: Id, fuel: nat) returns (ghost constValue: Option<Id>)
    requires t.Valid() && t.Size() == |defs| && t.Has(node) && defs[node].op == TFNames.Variable
    modifies t
    ensures t.Valid() && t.Size() == old(t.Size())
    ensures VariableGroupOf(old(t.edgeOut[node]), old(t.edgeOut), defs).None? ==>
      t.edgeIn == old(t.edgeIn) && t.edgeOut == old(t.edgeOut)
    ensures var grp := VariableGroupOf(old(t.edgeOut[node]), old(t.edgeOut), defs);
      grp.Some? ==>
        var (assign, read, output) := grp.value;
        output < t.Size() && node in t.edgeIn[output] &&
        (read != output && read != node && (constValue.Some? ==> read != constValue.value) ==> t.IsLonely(read)) &&
        (constValue.Some? ==>
          var c := constValue.value;
          c in old(t.edgeIn[assign]) && Picked(c, defs, IsConstDef) && c in t.edgeIn[node] &&
          (assign != output && assign != node && assign != c ==> t.IsLonely(assign)) &&
          Kept(old(t.edgeIn), t.edgeIn, {read, assign}) && Kept(old(t.edgeOut), t.edgeOut, {read, assign}) &&
          (old(t.WellFormed()) ==> t.WellFormed())) &&
        (constValue.None? ==>
          (assign != read ==> forall u :: u in old(t.edgeIn[assign]) && u != read ==> !Picked(u, defs, IsConstDef)) &&
          (assign != output && assign != node ==> t.IsLonely(assign)))
    ensures InGainsWeights(old(t.edgeIn), t.edgeIn, defs) && OutGainsWeights(old(t.edgeOut), t.edgeOut, defs)
  {
    var grp := VariableGroupOf(t.edgeOut[node], t.edgeOut, defs);
    constValue := None;
    if grp.Some? {
      var (assign, read, output) := grp.value;
      assert output in t.edgeOut[read];
      constValue := CollapseVariable(t, defs, node, assign, read, output, fuel);
    }
  }

  /** The lists through the const case of `ProcessVariable`: two strips,
      then two additions. */
  lemma VariableConstFacts(in0: seq<seq<Id>>, out0: seq<seq<Id>>, in1: seq<seq<Id>>, out1: seq<seq<Id>>,
                           in2: seq<seq<Id>>, out2: seq<seq<Id>>, read: Id, assign: Id)
    requires KeepsOthers(in0, in1, read) && KeepsOthers(out0, out1, read)
    requires KeepsOthers(in1, in2, assign) && KeepsOthers(out1, out2, assign)
    ensures Kept(in0, in2, {read, assign}) && Kept(out0, out2, {read, assign})
  {
  }

  /** The frozen-variable case of `TFVariableProcessor.optimize`, for a
      read node with incoming list `ins` and outgoing list `outs`: the only
      input, when it is a Const without inputs, and the only successor. */
  function FrozenReadOf(ins: seq<Id>, outs: seq<Id>, inLists: seq<seq<Id>>, defs: seq<NodeDef>): (r: Option<(Id, Id)>)
    ensures r.Some? <==>
      |ins| == 1 && Picked(ins[0], defs, IsConstDef) && ins[0] < |inLists| && inLists[ins[0]] == [] && |outs| == 1
    ensures r.Some? ==> r.value == (ins[0], outs[0])
  {
    if |ins| == 1 && Picked(ins[0], defs, IsConstDef) && ins[0] < |inLists| && inLists[ins[0]] == [] && |outs| == 1 then
      Some((ins[0], outs[0]))
    else None
  }

  /** A frozen variable read: the read node is stripped and its successor
      is fed by the Const directly. */
  method ProcessFrozenRead(t: NodeTable, defs: seq<NodeDef>, node: Id)
    requires t.Valid() && t.Size() == |defs| && t.Has(node)
    modifies t
    ensures t.Valid() && t.Size() == old(t.Size())
    ensures FrozenReadOf(old(t.edgeIn[node]), old(t.edgeOut[node]), old(t.edgeIn), defs).None? ==>
      t.edgeIn == old(t.edgeIn) && t.edgeOut == old(t.edgeOut)
    ensures var f := FrozenReadOf(old(t.edgeIn[node]), old(t.edgeOut[node]), old(t.edgeIn), defs);
      f.Some? ==>
        var (variable, output) := f.value;
        output < t.Size() && variable in t.edgeIn[output] && (output != node ==> t.IsLonely(node)) &&
        Kept(old(t.edgeIn), t.edgeIn, {node}) && Kept(old(t.edgeOut), t.edgeOut, {node})
    ensures InGainsWeights(old(t.edgeIn), t.edgeIn, defs) && OutGainsWeights(old(t.edgeOut), t.edgeOut, defs)
    ensures old(t.WellFormed()) ==> t.WellFormed()
  {
    var f := FrozenReadOf(t.edgeIn[node], t.edgeOut[node], t.edgeIn, defs);
    if f.Some? {
      var (variable, output) := f.value;
      assert output in t.edgeOut[node];
      t.Strip(node);
      ghost var in1, out1 := t.edgeIn, t.edgeOut;
      AddWeightEdge(t, defs, output, variable);
      assert Kept(old(t.edgeIn), in1, {node}) && Kept(old(t.edgeOut), out1, {node});
    }
  }

  /** `TFVariableProcessor.optimize`: each listed VariableV2 node is handed
      to `ProcessVariable` and each frozen variable read to
      `ProcessFrozenRead`, on the graph current at that moment. Recursive
      strips are taken to depth `fuel`. This contract states only that every
      edge the pass adds comes from a Variable or a Const; what each visit
      does is stated by those two methods alone. */
  method VariableProcessor(g: TFGraph, fuel: nat)
    requires g.Valid()
    modifies g.table
    ensures g.Valid() && g.table.Size() == old(g.table.Size())
    ensures InGainsWeights(old(g.table.edgeIn), g.table.edgeIn, g.defs)
    ensures OutGainsWeights(old(g.table.edgeOut), g.table.edgeOut, g.defs)
  {
    var t := g.table;
    var nodes := g.nodes;
    BoundedIsBoundedAt(nodes, |g.defs|);
    for i := 0 to |nodes|
      invariant g.Valid() && g.nodes == nodes && t.Size() == old(t.Size())
      invariant InGainsWeights(old(t.edgeIn), t.edgeIn, g.defs) && OutGainsWeights(old(t.edgeOut), t.edgeOut, g.defs)
    {
      var v := nodes[i];
      ghost var in1, out1 := t.edgeIn, t.edgeOut;
      if g.defs[v].op == TFNames.Variable {
        ghost var _ := ProcessVariable(t, g.defs, v, fuel);
      } else if IsReadName(g.defs[v].name) {
        ProcessFrozenRead(t, g.defs, v);
      }
      WeightGainsTrans(old(t.edgeIn), in1, t.edgeIn, old(t.edgeOut), out1, t.edgeOut, g.defs);
    }
  }

  /** Gaining only weight entries twice is gaining only weight entries. */
  lemma WeightGainsTrans(in0: seq<seq<Id>>, in1: seq<seq<Id>>, in2: seq<seq<Id>>,
                         out0: seq<seq<Id>>, out1: seq<seq<Id>>, out2: seq<seq<Id>>, defs: seq<NodeDef>)
    requires InGainsWeights(in0, in1, defs) && InGainsWeights(in1, in2, defs)
    requires OutGainsWeights(out0, out1, defs) && OutGainsWeights(out1, out2, defs)
    ensures InGainsWeights(in0, in2, defs) && OutGainsWeights(out0, out2, defs)
  {
  }
}
