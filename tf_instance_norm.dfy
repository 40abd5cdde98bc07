/** `TFInstanceNormOptimizer` (Sources/Adapters/Tensorflow/TFInstanceNormOptimizer.swift):
    the nodes of a `moments(_\d+)?/` scope, with the chain

        Add -> Pow -> RealDiv -> Mul -> Add        (a Sub also feeding the RealDiv)

    hanging off them, become one InstanceNormAdd node fed by the scope's
    outside input and by an InstanceNormMul node.

    The pass has two phases. The first visits the node list and only renames
    ops; the edges it reads are those of the graph it started from, and node
    names never change, so whether a node is in a scope is decided on the
    definitions the pass started from. The second phase links and strips. */
module TFNormScopes {
  import opened Wrappers
  import opened SeqUtil
  import opened Graph
  import opened TFProto
  import opened TFNames
  import opened TFGraphs
  import opened TFOptimizers

  /** `isInSubgraph` with the regex `moments(_\d+)?/`. */
  predicate InMoments(def: NodeDef) {
    Test(def.name, MomentsPattern)
  }

  /** `id(for:)`: the scope a node belongs to. */
  function NormId(def: NodeDef): string
    requires InMoments(def)
  {
    IdFor(def.name, MomentsPattern)
  }

  /** Node `v` is in scope `id`. */
  ghost predicate Member(v: Id, id: string, defs0: seq<NodeDef>) {
    v < |defs0| && InMoments(defs0[v]) && NormId(defs0[v]) == id
  }

  /** `n` nodes whose lists only name nodes. */
  ghost predicate Table(ins: seq<seq<Id>>, outs: seq<seq<Id>>, n: nat) {
    |ins| == n && |outs| == n &&
    forall v :: 0 <= v < n ==> Bounded(ins[v], n) && Bounded(outs[v], n)
  }

  lemma ValidTable(t: NodeTable)
    requires t.Valid()
    ensures Table(t.edgeIn, t.edgeOut, t.Size())
  {
  }

  /** `filter { !isInSubgraph($0) }`: the nodes of a list outside every scope, in order. */
  function OutsideOf(list: seq<Id>, defs: seq<NodeDef>): (r: seq<Id>)
    requires Bounded(list, |defs|)
    ensures Bounded(r, |defs|) && |r| <= |list|
    ensures forall u :: u in r <==> u in list && !InMoments(defs[u])
  {
    if list == [] then []
    else
      assert list[0] in list;
      assert forall u :: u in list <==> u == list[0] || u in list[1..];
      var rest := OutsideOf(list[1..], defs);
      if InMoments(defs[list[0]]) then rest else [list[0]] + rest
  }

  predicate IsSubDef(def: NodeDef) { def.op == TFNames.Sub }

  /** The nodes of one instance-norm chain. */
  datatype Chain = Chain(add: Id, pow: Id, div: Id, sub: Id, mul: Id, final: Id)

  /** The chain nodes that are stripped with the scope. */
  function Parts(c: Chain): seq<Id> {
    [c.sub, c.add, c.pow, c.div]
  }

  /** `c` is a chain: each node has the op and the single successor the
      optimizer asks for, and `sub` is the first Sub feeding the RealDiv. */
  ghost predicate IsChain(c: Chain, ins: seq<seq<Id>>, outs: seq<seq<Id>>, defs: seq<NodeDef>)
    requires Table(ins, outs, |defs|)
  {
    c.add < |defs| && defs[c.add].op == TFNames.Add && outs[c.add] == [c.pow] &&
    c.pow in outs[c.add] && defs[c.pow].op == Pow && outs[c.pow] == [c.div] &&
    c.div in outs[c.pow] && defs[c.div].op == RealDiv && outs[c.div] == [c.mul] &&
    FirstWhere(ins[c.div], defs, IsSubDef) == Some(c.sub) &&
    c.mul in outs[c.div] && defs[c.mul].op == TFNames.Mul && outs[c.mul] == [c.final] &&
    c.final in outs[c.mul] && defs[c.final].op == TFNames.Add
  }

  /** The `if let add = outputs.first, …` chain test, from the Add `add`. */
  function ChainFrom(add: Id, ins: seq<seq<Id>>, outs: seq<seq<Id>>, defs: seq<NodeDef>): (r: Option<Chain>)
    requires Table(ins, outs, |defs|) && add < |defs|
    ensures r.Some? ==> r.value.add == add && IsChain(r.value, ins, outs, defs)
    ensures r.None? ==> forall c: Chain :: c.add == add ==> !IsChain(c, ins, outs, defs)
  {
    if defs[add].op == TFNames.Add && |outs[add]| == 1 then
      var pow := outs[add][0];
      assert pow in outs[add];
      if defs[pow].op == Pow && |outs[pow]| == 1 then
        var div := outs[pow][0];
        assert div in outs[pow];
        if defs[div].op == RealDiv && |outs[div]| == 1 then
          var mul := outs[div][0];
          assert mul in outs[div];
          match FirstWhere(ins[div], defs, IsSubDef)
          case None => None
          case Some(sub) =>
            if defs[mul].op == TFNames.Mul && |outs[mul]| == 1 then
              var final := outs[mul][0];
              assert final in outs[mul];
              if defs[final].op == TFNames.Add then Some(Chain(add, pow, div, sub, mul, final)) else None
            else None
        else None
      else None
    else None
  }

  /** The chain a scope node leads to: a node without exactly one outside
      predecessor, with exactly one outside successor, from which a chain
      starts. */
  ghost function MemberChain(v: Id, ins: seq<seq<Id>>, outs: seq<seq<Id>>, defs0: seq<NodeDef>): Option<Chain>
    requires Table(ins, outs, |defs0|) && v < |defs0|
  {
    if |OutsideOf(ins[v], defs0)| == 1 then None
    else
      var outputs := OutsideOf(outs[v], defs0);
      if |outputs| == 1 then
        assert outputs[0] in outputs;
        ChainFrom(outputs[0], ins, outs, defs0)
      else None
  }

  /** The only changes the first phase makes: an Add becomes InstanceNormAdd,
      a Mul becomes InstanceNormMul. */
  ghost predicate Renamed(defs0: seq<NodeDef>, defs: seq<NodeDef>) {
    |defs| == |defs0| &&
    forall v :: 0 <= v < |defs| ==>
      defs[v] == defs0[v] ||
      (defs0[v].op == TFNames.Add && defs[v] == defs0[v].(op := InstanceNormAdd)) ||
      (defs0[v].op == TFNames.Mul && defs[v] == defs0[v].(op := InstanceNormMul))
  }

  /** Renaming an Add and a Mul that have not been renamed yet. */
  lemma RenamePair(defs0: seq<NodeDef>, defs: seq<NodeDef>, a: Id, m: Id)
    requires Renamed(defs0, defs) && a < |defs| && m < |defs|
    requires defs[a].op == TFNames.Add && defs[m].op == TFNames.Mul
    ensures defs[a] == defs0[a] && defs[m] == defs0[m]
    ensures Renamed(defs0, defs[a := defs[a].(op := InstanceNormAdd)][m := defs[m].(op := InstanceNormMul)])
  {
    assert TFNames.Add != InstanceNormAdd && TFNames.Add != InstanceNormMul;
    assert TFNames.Mul != InstanceNormAdd && TFNames.Mul != InstanceNormMul;
  }

  /** Renaming keeps which nodes are Subs. */
  lemma {:induction false} FirstPickRenamed(list: seq<Id>, defs0: seq<NodeDef>, defs: seq<NodeDef>)
    requires Renamed(defs0, defs)
    ensures FirstPick(list, defs, IsSubDef) == FirstPick(list, defs0, IsSubDef)
    decreases |list|
  {
    if list != [] {
      FirstPickRenamed(list[1..], defs0, defs);
    }
  }

  /** A chain seen on renamed definitions was a chain from the start. */
  lemma ChainRenamed(c: Chain, ins: seq<seq<Id>>, outs: seq<seq<Id>>, defs0: seq<NodeDef>, defs: seq<NodeDef>)
    requires Table(ins, outs, |defs0|) && Renamed(defs0, defs)
    requires IsChain(c, ins, outs, defs)
    ensures IsChain(c, ins, outs, defs0)
  {
    FirstPickRenamed(ins[c.div], defs0, defs);
  }

  /** A chain whose Adds and Mul have not been renamed is still a chain. */
  lemma ChainUntouched(c: Chain, ins: seq<seq<Id>>, outs: seq<seq<Id>>, defs0: seq<NodeDef>, defs: seq<NodeDef>)
    requires Table(ins, outs, |defs0|) && Renamed(defs0, defs)
    requires IsChain(c, ins, outs, defs0)
    requires defs[c.add] == defs0[c.add] && defs[c.mul] == defs0[c.mul] && defs[c.final] == defs0[c.final]
    ensures IsChain(c, ins, outs, defs)
  {
    FirstPickRenamed(ins[c.div], defs0, defs);
  }

  /** A chain is fixed by its first Add. */
  lemma ChainUnique(c: Chain, d: Chain, ins: seq<seq<Id>>, outs: seq<seq<Id>>, defs: seq<NodeDef>)
    requires Table(ins, outs, |defs|)
    requires IsChain(c, ins, outs, defs) && IsChain(d, ins, outs, defs) && c.add == d.add
    ensures c == d
  {
  }

  /** `INormNodes`: a scope's outside input, its final Add and the nodes to strip. */
  datatype INormNodes = INormNodes(input: Option<Id>, output: Option<Id>, toStrip: seq<Id>)

  /** The chain test of lines 50-62 on the current definitions and, when it
      succeeds, the renaming of lines 65-66. It finds the node's chain
      exactly when that chain's Adds and Mul have not been renamed yet. */
  method RenameChain(t: NodeTable, defs0: seq<NodeDef>, defs: seq<NodeDef>, v: Id)
    returns (found: Option<Chain>, defs': seq<NodeDef>)
    requires t.Valid() && t.Size() == |defs0| && v < |defs0| && Renamed(defs0, defs)
    requires |OutsideOf(t.edgeIn[v], defs0)| != 1
    ensures Table(t.edgeIn, t.edgeOut, |defs0|) && Renamed(defs0, defs')
    ensures var mc := MemberChain(v, t.edgeIn, t.edgeOut, defs0);
      (found.None? && defs' == defs) ||
      (found == mc && mc.Some? &&
       defs[mc.value.final] == defs0[mc.value.final] && defs[mc.value.mul] == defs0[mc.value.mul] &&
       defs[mc.value.final].op == TFNames.Add && defs[mc.value.mul].op == TFNames.Mul &&
       defs' == defs[mc.value.final := defs[mc.value.final].(op := InstanceNormAdd)]
                    [mc.value.mul := defs[mc.value.mul].(op := InstanceNormMul)])
    ensures var mc := MemberChain(v, t.edgeIn, t.edgeOut, defs0);
      (mc.Some? && defs[mc.value.add] == defs0[mc.value.add] && defs[mc.value.mul] == defs0[mc.value.mul] &&
       defs[mc.value.final] == defs0[mc.value.final]) ==> found == mc
  {
    ValidTable(t);
    found, defs' := None, defs;
    var outputs := OutsideOf(t.edgeOut[v], defs0);
    if |outputs| == 1 {
      assert outputs[0] in outputs;
      ChainFromRenamed(outputs[0], t.edgeIn, t.edgeOut, defs0, defs);
      found := ChainFrom(outputs[0], t.edgeIn, t.edgeOut, defs);
      if found.Some? {
        var c := found.value;
        defs' := defs[c.final := defs[c.final].(op := InstanceNormAdd)];
        defs' := defs'[c.mul := defs'[c.mul].(op := InstanceNormMul)];
        RenamePair(defs0, defs, c.final, c.mul);
      }
    }
  }

  /** The chain test on renamed definitions finds the chain of the original
      ones, and finds it whenever its Adds and Mul are not renamed. */
  lemma ChainFromRenamed(o: Id, ins: seq<seq<Id>>, outs: seq<seq<Id>>, defs0: seq<NodeDef>, defs: seq<NodeDef>)
    requires Table(ins, outs, |defs0|) && Renamed(defs0, defs) && o < |defs0|
    ensures ChainFrom(o, ins, outs, defs).Some? ==> ChainFrom(o, ins, outs, defs0) == ChainFrom(o, ins, outs, defs)
    ensures var c0 := ChainFrom(o, ins, outs, defs0);
      (c0.Some? && defs[c0.value.add] == defs0[c0.value.add] && defs[c0.value.mul] == defs0[c0.value.mul] &&
       defs[c0.value.final] == defs0[c0.value.final]) ==> ChainFrom(o, ins, outs, defs) == c0
  {
    var c0 := ChainFrom(o, ins, outs, defs0);
    var c := ChainFrom(o, ins, outs, defs);
    if c.Some? {
      ChainRenamed(c.value, ins, outs, defs0, defs);
      ChainUnique(c.value, c0.value, ins, outs, defs0);
    }
    if c0.Some? && defs[c0.value.add] == defs0[c0.value.add] && defs[c0.value.mul] == defs0[c0.value.mul] &&
       defs[c0.value.final] == defs0[c0.value.final] {
      ChainUntouched(c0.value, ins, outs, defs0, defs);
      ChainUnique(c.value, c0.value, ins, outs, defs);
    }
  }

  /** What one scope node `v` does to its scope's record `cur` (lines 43-71):
      a node with exactly one outside predecessor records it as the input
      when none is recorded yet, and `agrees` is the debug assertion that it
      equals the recorded one; otherwise, when a chain hangs off the node,
      its Sub, Add, Pow and RealDiv are queued, its final Add becomes the
      output and is renamed InstanceNormAdd, its Mul InstanceNormMul. The
      node itself is always queued. */
  method VisitMember(t: NodeTable, defs0: seq<NodeDef>, defs: seq<NodeDef>, v: Id, cur: INormNodes)
    returns (next: INormNodes, defs': seq<NodeDef>, agrees: bool)
    requires t.Valid() && t.Size() == |defs0| && v < |defs0| && Renamed(defs0, defs)
    ensures Table(t.edgeIn, t.edgeOut, |defs0|) && Renamed(defs0, defs')
    ensures var single := OutsideOf(t.edgeIn[v], defs0);
      next.input == (if |single| == 1 && cur.input.None? then Some(single[0]) else cur.input) &&
      (agrees <==> |single| != 1 || cur.input.None? || cur.input == Some(single[0]))
    ensures VisitedBy(cur, next, v, MemberChain(v, t.edgeIn, t.edgeOut, defs0), defs0, defs, defs')
    ensures var mc := MemberChain(v, t.edgeIn, t.edgeOut, defs0);
      (mc.Some? && defs[mc.value.add] == defs0[mc.value.add] && defs[mc.value.mul] == defs0[mc.value.mul] &&
       defs[mc.value.final] == defs0[mc.value.final]) ==>
        next.output == Some(mc.value.final) && next.toStrip == cur.toStrip + Parts(mc.value) + [v]
  {
    ValidTable(t);
    var inputs := OutsideOf(t.edgeIn[v], defs0);
    next, defs', agrees := cur, defs, true;
    if |inputs| == 1 {
      if cur.input.None? {
        next := next.(input := Some(inputs[0]));
      } else {
        agrees := cur.input.value == inputs[0];
      }
    } else {
      var found;
      found, defs' := RenameChain(t, defs0, defs, v);
      if found.Some? {
        next := next.(toStrip := next.toStrip + Parts(found.value), output := Some(found.value.final));
      }
    }
    next := next.(toStrip := next.toStrip + [v]);
  }

  const NoNodes := INormNodes(None, None, [])

  /** The record of scope `id`, or the empty one (`mappings[id] ?? INormNodes()`). */
  function RecordOf(m: map<string, INormNodes>, id: string): INormNodes {
    if id in m then m[id] else NoNodes
  }

  /** The scope of a node, if it is in one. */
  function ScopeOf(def: NodeDef): (r: Option<string>)
    ensures r.Some? <==> InMoments(def)
    ensures r.Some? ==> r.value == NormId(def)
  {
    if InMoments(def) then Some(NormId(def)) else None
  }

  /** The scope of every node; names do not change during the pass. */
  function Scopes(defs0: seq<NodeDef>): (r: seq<Option<string>>)
    ensures |r| == |defs0| && forall v :: 0 <= v < |defs0| ==> r[v] == ScopeOf(defs0[v])
  {
    seq(|defs0|, v requires 0 <= v < |defs0| => ScopeOf(defs0[v]))
  }

  /** The outside predecessors of the first `n` nodes. */
  ghost function SinglesUpTo(ins: seq<seq<Id>>, defs0: seq<NodeDef>, n: nat): (r: seq<seq<Id>>)
    requires n <= |ins| == |defs0| && forall v :: 0 <= v < |ins| ==> Bounded(ins[v], |defs0|)
    ensures |r| == n
  {
    if n == 0 then [] else SinglesUpTo(ins, defs0, n - 1) + [OutsideOf(ins[n - 1], defs0)]
  }

  /** The outside predecessors of every node. */
  ghost function Singles(ins: seq<seq<Id>>, defs0: seq<NodeDef>): (r: seq<seq<Id>>)
    requires |ins| == |defs0| && forall v :: 0 <= v < |ins| ==> Bounded(ins[v], |defs0|)
    ensures |r| == |defs0|
  {
    SinglesUpTo(ins, defs0, |defs0|)
  }

  lemma {:induction false} SinglesAt(ins: seq<seq<Id>>, defs0: seq<NodeDef>, n: nat, v: Id)
    requires n <= |ins| == |defs0| && forall v :: 0 <= v < |ins| ==> Bounded(ins[v], |defs0|)
    requires v < n
    ensures SinglesUpTo(ins, defs0, n)[v] == OutsideOf(ins[v], defs0)
  {
    if v < n - 1 {
      SinglesAt(ins, defs0, n - 1, v);
    }
  }

  /** The chains the first `n` nodes lead to, if any. */
  ghost function ChainsUpTo(ins: seq<seq<Id>>, outs: seq<seq<Id>>, defs0: seq<NodeDef>, n: nat): (r: seq<Option<Chain>>)
    requires Table(ins, outs, |defs0|) && n <= |defs0|
    ensures |r| == n
  {
    if n == 0 then [] else ChainsUpTo(ins, outs, defs0, n - 1) + [MemberChain(n - 1, ins, outs, defs0)]
  }

  /** The chain every node leads to, if any. */
  ghost function Chains(ins: seq<seq<Id>>, outs: seq<seq<Id>>, defs0: seq<NodeDef>): (r: seq<Option<Chain>>)
    requires Table(ins, outs, |defs0|)
    ensures |r| == |defs0|
  {
    ChainsUpTo(ins, outs, defs0, |defs0|)
  }

  lemma {:induction false} ChainsAt(ins: seq<seq<Id>>, outs: seq<seq<Id>>, defs0: seq<NodeDef>, n: nat, v: Id)
    requires Table(ins, outs, |defs0|) && n <= |defs0| && v < n
    ensures ChainsUpTo(ins, outs, defs0, n)[v] == MemberChain(v, ins, outs, defs0)
  {
    if v < n - 1 {
      ChainsAt(ins, outs, defs0, n - 1, v);
    }
  }

  /** The scope nodes among the first `i` nodes of the list. */
  ghost function Visited(nodes: seq<Id>, i: nat, scope: seq<Option<string>>): set<Id>
    requires i <= |nodes| && Bounded(nodes, |scope|)
  {
    set k | 0 <= k < i && nodes[k] in nodes && scope[nodes[k]].Some? :: nodes[k]
  }

  lemma VisitedStep(nodes: seq<Id>, i: nat, scope: seq<Option<string>>)
    requires i < |nodes| && Bounded(nodes, |scope|)
    ensures nodes[i] in nodes
    ensures Visited(nodes, i + 1, scope) ==
      Visited(nodes, i, scope) + (if scope[nodes[i]].Some? then {nodes[i]} else {})
  {
    assert nodes[i] in nodes;
  }

  lemma VisitedAll(nodes: seq<Id>, scope: seq<Option<string>>)
    requires Bounded(nodes, |scope|)
    ensures forall v :: v in Visited(nodes, |nodes|, scope) <==> v in nodes && scope[v].Some?
  {
    forall v | v in nodes && scope[v].Some? ensures v in Visited(nodes, |nodes|, scope) {
      var k :| 0 <= k < |nodes| && nodes[k] == v;
    }
  }

  /** A scope records an input exactly when one of its visited nodes has a
      single outside predecessor (`sin`), and the input is such a predecessor. */
  ghost predicate InputsSound(m: map<string, INormNodes>, seen: set<Id>, scope: seq<Option<string>>, sin: seq<seq<Id>>)
    requires |sin| == |scope|
  {
    forall id :: id in m ==>
      (m[id].input.None? <==> forall v :: v in seen && v < |scope| && scope[v] == Some(id) ==> |sin[v]| != 1) &&
      (m[id].input.Some? ==>
         exists v :: v in seen && v < |scope| && scope[v] == Some(id) && sin[v] == [m[id].input.value])
  }

  /** Every visited scope node with a single outside predecessor sees it
      recorded as its scope's input. */
  ghost predicate AllRecorded(m: map<string, INormNodes>, seen: set<Id>, scope: seq<Option<string>>, sin: seq<seq<Id>>)
    requires |sin| == |scope|
  {
    forall v :: v in seen && v < |scope| && scope[v].Some? && |sin[v]| == 1 ==>
      scope[v].value in m && m[scope[v].value].input == Some(sin[v][0])
  }

  /** The debug assertion of line 48 holds throughout: within a scope, all
      nodes with a single outside predecessor have the same one. */
  ghost predicate Agree(seen: set<Id>, scope: seq<Option<string>>, sin: seq<seq<Id>>)
    requires |sin| == |scope|
  {
    forall v, w :: (v in seen && w in seen && v < |scope| && w < |scope| && scope[v].Some? && scope[v] == scope[w] &&
      |sin[v]| == 1 && |sin[w]| == 1) ==> sin[v] == sin[w]
  }

  /** Every visited scope node is queued in its scope's record. */
  ghost predicate Complete(m: map<string, INormNodes>, seen: set<Id>, scope: seq<Option<string>>) {
    forall v :: v in seen && v < |scope| && scope[v].Some? ==> scope[v].value in m && v in m[scope[v].value].toStrip
  }

  /** A recorded output is the final Add of the chain of a visited node of
      the scope, and is now an InstanceNormAdd. */
  ghost predicate OutputsSound(m: map<string, INormNodes>, seen: set<Id>, scope: seq<Option<string>>,
                               chains: seq<Option<Chain>>, defs: seq<NodeDef>)
    requires |chains| == |scope|
  {
    forall id :: id in m && m[id].output.Some? ==>
      m[id].output.value < |defs| && defs[m[id].output.value].op == InstanceNormAdd &&
      exists v :: v in seen && v < |scope| && scope[v] == Some(id) && chains[v].Some? &&
        chains[v].value.final == m[id].output.value
  }

  /** Queued node `x` of scope `id` is a visited node of the scope, or the
      Sub, Add, Pow or RealDiv of the chain of one. */
  ghost predicate QueuedFor(id: string, x: Id, seen: set<Id>, scope: seq<Option<string>>, chains: seq<Option<Chain>>)
    requires |chains| == |scope|
  {
    (x in seen && x < |scope| && scope[x] == Some(id)) ||
    exists v :: v in seen && v < |scope| && scope[v] == Some(id) && chains[v].Some? && x in Parts(chains[v].value)
  }

  ghost predicate StripsSound(m: map<string, INormNodes>, seen: set<Id>, scope: seq<Option<string>>,
                              chains: seq<Option<Chain>>)
    requires |chains| == |scope|
  {
    forall id, x :: id in m && x in m[id].toStrip ==> QueuedFor(id, x, seen, scope, chains)
  }

  /** A renamed node is the final Add or the Mul of the chain of a visited
      scope node. */
  ghost predicate RenamesSound(seen: set<Id>, chains: seq<Option<Chain>>, defs0: seq<NodeDef>, defs: seq<NodeDef>)
    requires |defs| == |defs0|
  {
    forall x :: 0 <= x < |defs| && defs[x] != defs0[x] ==>
      exists v :: v in seen && v < |chains| && chains[v].Some? && (x == chains[v].value.final || x == chains[v].value.mul)
  }

  /** The input record after one scope node `v`. */
  lemma InputsStep(m: map<string, INormNodes>, seen: set<Id>, v: Id, next: INormNodes,
                   scope: seq<Option<string>>, sin: seq<seq<Id>>)
    requires |sin| == |scope| && v < |scope| && scope[v].Some?
    requires InputsSound(m, seen, scope, sin) && Complete(m, seen, scope)
    requires var cur := RecordOf(m, scope[v].value);
      next.input == (if |sin[v]| == 1 && cur.input.None? then Some(sin[v][0]) else cur.input)
    ensures InputsSound(m[scope[v].value := next], seen + {v}, scope, sin)
  {
    var id := scope[v].value;
    if id !in m {
      forall u | u in seen && u < |scope| && scope[u] == Some(id) ensures false {
      }
    }
    if |sin[v]| == 1 {
      assert sin[v] == [sin[v][0]];
    }
  }

  /** The debug assertion after one scope node `v`: it has held so far
      exactly when the scope's nodes agreed so far. */
  lemma AgreeStep(m: map<string, INormNodes>, seen: set<Id>, v: Id, scope: seq<Option<string>>, sin: seq<seq<Id>>,
                  consistent: bool, agrees: bool)
    requires |sin| == |scope| && v < |scope| && scope[v].Some?
    requires InputsSound(m, seen, scope, sin) && Complete(m, seen, scope)
    requires (consistent <==> Agree(seen, scope, sin)) && (consistent ==> AllRecorded(m, seen, scope, sin))
    requires var cur := RecordOf(m, scope[v].value);
      agrees <==> |sin[v]| != 1 || cur.input.None? || cur.input == Some(sin[v][0])
    ensures consistent && agrees <==> Agree(seen + {v}, scope, sin)
  {
    var id := scope[v].value;
    var cur := RecordOf(m, id);
    var seen' := seen + {v};
    if !consistent {
      assert !Agree(seen', scope, sin);
    } else if |sin[v]| == 1 && cur.input.Some? {
      var p := cur.input.value;
      var w :| w in seen && w < |scope| && scope[w] == Some(id) && sin[w] == [p];
      if agrees {
        assert sin[v] == [p];
        forall u | u in seen && u < |scope| && scope[u] == Some(id) && |sin[u]| == 1
          ensures sin[u] == sin[v]
        {
          assert sin[u] == [sin[u][0]];
        }
      } else {
        assert w in seen' && v in seen';
        assert sin[v] == [sin[v][0]];
      }
    } else if |sin[v]| == 1 {
      if id in m {
        assert forall u :: u in seen && u < |scope| && scope[u] == Some(id) ==> |sin[u]| != 1;
      } else {
        forall u | u in seen && u < |scope| && scope[u] == Some(id) ensures false {
        }
      }
    }
  }

  /** Recorded inputs after one scope node `v`, while the assertion holds. */
  lemma RecordedStep(m: map<string, INormNodes>, seen: set<Id>, v: Id, next: INormNodes,
                     scope: seq<Option<string>>, sin: seq<seq<Id>>, agrees: bool)
    requires |sin| == |scope| && v < |scope| && scope[v].Some?
    requires AllRecorded(m, seen, scope, sin)
    requires var cur := RecordOf(m, scope[v].value);
      next.input == (if |sin[v]| == 1 && cur.input.None? then Some(sin[v][0]) else cur.input) &&
      (agrees <==> |sin[v]| != 1 || cur.input.None? || cur.input == Some(sin[v][0]))
    requires agrees
    ensures AllRecorded(m[scope[v].value := next], seen + {v}, scope, sin)
  {
  }

  /** What one scope node does to the rest of the state it may set: the
      new entries `VisitMember` describes. */
  ghost predicate VisitedBy(cur: INormNodes, next: INormNodes, v: Id, c: Option<Chain>,
                            defs0: seq<NodeDef>, defs: seq<NodeDef>, defs': seq<NodeDef>)
  {
    (next.output == cur.output && next.toStrip == cur.toStrip + [v] && defs' == defs) ||
    (c.Some? && next.output == Some(c.value.final) && next.toStrip == cur.toStrip + Parts(c.value) + [v] &&
     c.value.final < |defs| && c.value.mul < |defs| &&
     defs[c.value.final].op == TFNames.Add && defs[c.value.mul].op == TFNames.Mul &&
     defs' == defs[c.value.final := defs[c.value.final].(op := InstanceNormAdd)]
                  [c.value.mul := defs[c.value.mul].(op := InstanceNormMul)])
  }

  /** Outputs and renames after one scope node `v`. */
  lemma OutputsStep(m: map<string, INormNodes>, seen: set<Id>, v: Id, next: INormNodes,
                    scope: seq<Option<string>>, chains: seq<Option<Chain>>,
                    defs0: seq<NodeDef>, defs: seq<NodeDef>, defs': seq<NodeDef>)
    requires |chains| == |scope| == |defs0| == |defs| == |defs'| && v < |scope| && scope[v].Some?
    requires OutputsSound(m, seen, scope, chains, defs) && RenamesSound(seen, chains, defs0, defs)
    requires VisitedBy(RecordOf(m, scope[v].value), next, v, chains[v], defs0, defs, defs')
    ensures OutputsSound(m[scope[v].value := next], seen + {v}, scope, chains, defs')
    ensures RenamesSound(seen + {v}, chains, defs0, defs')
  {
    assert InstanceNormAdd != TFNames.Add && InstanceNormAdd != TFNames.Mul;
  }

  /** Queued nodes after one scope node `v`. */
  lemma StripsStep(m: map<string, INormNodes>, seen: set<Id>, v: Id, next: INormNodes,
                   scope: seq<Option<string>>, chains: seq<Option<Chain>>,
                   defs0: seq<NodeDef>, defs: seq<NodeDef>, defs': seq<NodeDef>)
    requires |chains| == |scope| && v < |scope| && scope[v].Some?
    requires StripsSound(m, seen, scope, chains) && Complete(m, seen, scope)
    requires VisitedBy(RecordOf(m, scope[v].value), next, v, chains[v], defs0, defs, defs')
    ensures StripsSound(m[scope[v].value := next], seen + {v}, scope, chains)
    ensures Complete(m[scope[v].value := next], seen + {v}, scope)
  {
    var id := scope[v].value;
    var cur := RecordOf(m, id);
    var m', seen' := m[id := next], seen + {v};
    forall i, x | i in m' && x in m'[i].toStrip
      ensures QueuedFor(i, x, seen', scope, chains)
    {
      if i != id {
        assert QueuedFor(i, x, seen, scope, chains);
      } else if x == v {
      } else if x in cur.toStrip {
        assert QueuedFor(i, x, seen, scope, chains);
      } else {
        assert next.toStrip == cur.toStrip + Parts(chains[v].value) + [v];
        assert chains[v].Some? && x in Parts(chains[v].value);
      }
    }
  }

  /** The state of the first loop after the scope nodes `seen`. */
  ghost predicate Collected(m: map<string, INormNodes>, seen: set<Id>, scope: seq<Option<string>>, sin: seq<seq<Id>>,
                            chains: seq<Option<Chain>>, defs0: seq<NodeDef>, defs: seq<NodeDef>, consistent: bool)
    requires |sin| == |scope| && |chains| == |scope|
  {
    Renamed(defs0, defs) &&
    InputsSound(m, seen, scope, sin) &&
    (consistent <==> Agree(seen, scope, sin)) &&
    (consistent ==> AllRecorded(m, seen, scope, sin)) &&
    Complete(m, seen, scope) &&
    OutputsSound(m, seen, scope, chains, defs) &&
    StripsSound(m, seen, scope, chains) &&
    RenamesSound(seen, chains, defs0, defs)
  }

  /** One scope node keeps the loop's state. */
  lemma CollectStep(m: map<string, INormNodes>, seen: set<Id>, v: Id, next: INormNodes,
                    scope: seq<Option<string>>, sin: seq<seq<Id>>, chains: seq<Option<Chain>>,
                    defs0: seq<NodeDef>, defs: seq<NodeDef>, defs': seq<NodeDef>, consistent: bool, agrees: bool)
    requires |sin| == |scope| == |chains| == |defs0| && v < |scope| && scope[v].Some?
    requires Collected(m, seen, scope, sin, chains, defs0, defs, consistent) && Renamed(defs0, defs')
    requires var cur := RecordOf(m, scope[v].value);
      next.input == (if |sin[v]| == 1 && cur.input.None? then Some(sin[v][0]) else cur.input) &&
      (agrees <==> |sin[v]| != 1 || cur.input.None? || cur.input == Some(sin[v][0])) &&
      VisitedBy(cur, next, v, chains[v], defs0, defs, defs')
    ensures Collected(m[scope[v].value := next], seen + {v}, scope, sin, chains, defs0, defs', consistent && agrees)
  {
    InputsStep(m, seen, v, next, scope, sin);
    AgreeStep(m, seen, v, scope, sin, consistent, agrees);
    if consistent && agrees {
      RecordedStep(m, seen, v, next, scope, sin, agrees);
    }
    OutputsStep(m, seen, v, next, scope, chains, defs0, defs, defs');
    StripsStep(m, seen, v, next, scope, chains, defs0, defs, defs');
  }

  /** The state depends on the set of visited nodes, not on how it is written. */
  lemma CollectedSame(m: map<string, INormNodes>, seen: set<Id>, seen': set<Id>, scope: seq<Option<string>>,
                      sin: seq<seq<Id>>, chains: seq<Option<Chain>>, defs0: seq<NodeDef>, defs: seq<NodeDef>,
                      consistent: bool)
    requires |sin| == |scope| && |chains| == |scope| && seen == seen'
    requires Collected(m, seen, scope, sin, chains, defs0, defs, consistent)
    ensures Collected(m, seen', scope, sin, chains, defs0, defs, consistent)
  {
  }

  /** Before the loop nothing is recorded, and the assertion holds. */
  lemma CollectedInit(scope: seq<Option<string>>, sin: seq<seq<Id>>, chains: seq<Option<Chain>>, defs0: seq<NodeDef>)
    requires |sin| == |scope| && |chains| == |scope|
    ensures Collected(map[], {}, scope, sin, chains, defs0, defs0, true)
  {
  }
}

/** The two loops of `TFInstanceNormOptimizer.optimize`. */
module TFInstanceNorm {
  import opened Wrappers
  import opened SeqUtil
  import opened Graph
  import opened TFProto
  import opened TFNames
  import opened TFGraphs
  import opened TFOptimizers
  import opened TFNormScopes
  import opened TFNormWiring

  /** The loop body for scope node `v` (lines 43-71), with the record
      stored back and a new scope appended to `order`. */
  method CollectOne(t: NodeTable, defs0: seq<NodeDef>, scope: seq<Option<string>>, ghost seen: set<Id>, v: Id,
                    defs: seq<NodeDef>, mappings: map<string, INormNodes>, order: seq<string>, consistent: bool)
    returns (defs': seq<NodeDef>, mappings': map<string, INormNodes>, order': seq<string>, consistent': bool)
    requires t.Valid() && t.Size() == |defs0| && scope == Scopes(defs0) && v < |defs0| && scope[v].Some?
    requires (forall id :: id in mappings <==> id in order) && NoDup(order)
    requires Collected(mappings, seen, scope, Singles(t.edgeIn, defs0), Chains(t.edgeIn, t.edgeOut, defs0), defs0, defs, consistent)
    ensures (forall id :: id in mappings' <==> id in order') && NoDup(order')
    ensures Collected(mappings', seen + {v}, scope, Singles(t.edgeIn, defs0), Chains(t.edgeIn, t.edgeOut, defs0), defs0, defs', consistent')
  {
    ValidTable(t);
    var id := scope[v].value;
    var cur := RecordOf(mappings, id);
    var next, agrees;
    next, defs', agrees := VisitMember(t, defs0, defs, v, cur);
    SinglesAt(t.edgeIn, defs0, |defs0|, v);
    ChainsAt(t.edgeIn, t.edgeOut, defs0, |defs0|, v);
    CollectStep(mappings, seen, v, next, scope, Singles(t.edgeIn, defs0), Chains(t.edgeIn, t.edgeOut, defs0),
                defs0, defs, defs', consistent, agrees);
    order' := order;
    if id !in mappings {
      NoDupAppend(order, id);
      order' := order + [id];
    }
    mappings' := mappings[id := next];
    consistent' := consistent && agrees;
  }

  /** The loop body for the `i`-th node of the list: a scope node is
      visited, any other node changes nothing. */
  method CollectAt(t: NodeTable, nodes: seq<Id>, i: nat, defs0: seq<NodeDef>, scope: seq<Option<string>>,
                   defs: seq<NodeDef>, mappings: map<string, INormNodes>, order: seq<string>, consistent: bool)
    returns (defs': seq<NodeDef>, mappings': map<string, INormNodes>, order': seq<string>, consistent': bool)
    requires t.Valid() && t.Size() == |defs0| && scope == Scopes(defs0)
    requires Bounded(nodes, |defs0|) && i < |nodes|
    requires (forall id :: id in mappings <==> id in order) && NoDup(order)
    requires Collected(mappings, Visited(nodes, i, scope), scope, Singles(t.edgeIn, defs0),
                       Chains(t.edgeIn, t.edgeOut, defs0), defs0, defs, consistent)
    ensures (forall id :: id in mappings' <==> id in order') && NoDup(order')
    ensures Collected(mappings', Visited(nodes, i + 1, scope), scope, Singles(t.edgeIn, defs0),
                      Chains(t.edgeIn, t.edgeOut, defs0), defs0, defs', consistent')
  {
    ValidTable(t);
    VisitedStep(nodes, i, scope);
    var v := nodes[i];
    ghost var seen := Visited(nodes, i, scope);
    ghost var sin := Singles(t.edgeIn, defs0);
    ghost var chains := Chains(t.edgeIn, t.edgeOut, defs0);
    if scope[v].Some? {
      defs', mappings', order', consistent' := CollectOne(t, defs0, scope, seen, v, defs, mappings, order, consistent);
      CollectedSame(mappings', seen + {v}, Visited(nodes, i + 1, scope), scope, sin, chains, defs0, defs', consistent');
    } else {
      defs', mappings', order', consistent' := defs, mappings, order, consistent;
      CollectedSame(mappings', seen, Visited(nodes, i + 1, scope), scope, sin, chains, defs0, defs', consistent');
    }
  }

  /** The first loop (lines 41-72): every scope node of the list, in order,
      updates its scope's record and may rename one chain's Add and Mul.
      `order` lists the scopes in the order they were first seen, and
      `consistent` is the debug assertion of line 48 over the whole loop. */
  method CollectNorms(t: NodeTable, nodes: seq<Id>, defs0: seq<NodeDef>)
    returns (defs: seq<NodeDef>, mappings: map<string, INormNodes>, order: seq<string>, consistent: bool)
    requires t.Valid() && t.Size() == |defs0| && Bounded(nodes, |defs0|)
    ensures Table(t.edgeIn, t.edgeOut, |defs0|) && Renamed(defs0, defs)
    ensures (forall id :: id in mappings <==> id in order) && NoDup(order)
    ensures forall v :: v in Visited(nodes, |nodes|, Scopes(defs0)) <==> v in nodes && InMoments(defs0[v])
    ensures Collected(mappings, Visited(nodes, |nodes|, Scopes(defs0)), Scopes(defs0), Singles(t.edgeIn, defs0),
                      Chains(t.edgeIn, t.edgeOut, defs0), defs0, defs, consistent)
  {
    ValidTable(t);
    var scope := Scopes(defs0);
    defs, mappings, order, consistent := defs0, map[], [], true;
    assert Visited(nodes, 0, scope) == {};
    CollectedInit(scope, Singles(t.edgeIn, defs0), Chains(t.edgeIn, t.edgeOut, defs0), defs0);
    for i := 0 to |nodes|
      invariant (forall id :: id in mappings <==> id in order) && NoDup(order)
      invariant Collected(mappings, Visited(nodes, i, scope), scope, Singles(t.edgeIn, defs0),
                          Chains(t.edgeIn, t.edgeOut, defs0), defs0, defs, consistent)
    {
      defs, mappings, order, consistent := CollectAt(t, nodes, i, defs0, scope, defs, mappings, order, consistent);
    }
    VisitedAll(nodes, scope);
  }

  /** The nodes of a chain are nodes of the table. */
  lemma ChainBounded(c: Chain, ins: seq<seq<Id>>, outs: seq<seq<Id>>, defs: seq<NodeDef>)
    requires Table(ins, outs, |defs|) && IsChain(c, ins, outs, defs)
    ensures forall x :: x in Parts(c) ==> x < |defs|
    ensures c.mul < |defs| && c.final < |defs|
  {
  }

  /** Recorded inputs are nodes of the table. */
  lemma InputsBounded(m: map<string, INormNodes>, seen: set<Id>, ins: seq<seq<Id>>, defs0: seq<NodeDef>)
    requires |ins| == |defs0| && forall v :: 0 <= v < |ins| ==> Bounded(ins[v], |defs0|)
    requires InputsSound(m, seen, Scopes(defs0), Singles(ins, defs0))
    ensures forall id :: id in m && m[id].input.Some? ==> m[id].input.value < |defs0|
  {
    var scope, sin := Scopes(defs0), Singles(ins, defs0);
    forall id | id in m && m[id].input.Some? ensures m[id].input.value < |defs0| {
      var v :| v in seen && v < |scope| && scope[v] == Some(id) && sin[v] == [m[id].input.value];
      SinglesAt(ins, defs0, |defs0|, v);
      assert m[id].input.value in sin[v];
    }
  }

  /** Queued nodes are nodes of the table. */
  lemma StripsBounded(m: map<string, INormNodes>, seen: set<Id>, ins: seq<seq<Id>>, outs: seq<seq<Id>>, defs0: seq<NodeDef>)
    requires Table(ins, outs, |defs0|) && forall v :: v in seen ==> v < |defs0|
    requires StripsSound(m, seen, Scopes(defs0), Chains(ins, outs, defs0))
    ensures forall id :: id in m ==> Bounded(m[id].toStrip, |defs0|)
  {
    var scope, chains := Scopes(defs0), Chains(ins, outs, defs0);
    forall id, x | id in m && x in m[id].toStrip ensures x < |defs0| {
      assert QueuedFor(id, x, seen, scope, chains);
      if x !in seen {
        var v :| v in seen && v < |scope| && scope[v] == Some(id) && chains[v].Some? && x in Parts(chains[v].value);
        ChainsAt(ins, outs, defs0, |defs0|, v);
        ChainBounded(chains[v].value, ins, outs, defs0);
      }
    }
  }

  /** Everything the first loop records is a node of the table. */
  lemma CollectedBounded(m: map<string, INormNodes>, seen: set<Id>, ins: seq<seq<Id>>, outs: seq<seq<Id>>,
                         defs0: seq<NodeDef>, defs: seq<NodeDef>, consistent: bool)
    requires Table(ins, outs, |defs0|) && forall v :: v in seen ==> v < |defs0|
    requires Collected(m, seen, Scopes(defs0), Singles(ins, defs0), Chains(ins, outs, defs0), defs0, defs, consistent)
    ensures RecordsBounded(m, |defs0|)
  {
    InputsBounded(m, seen, ins, defs0);
    StripsBounded(m, seen, ins, outs, defs0);
  }

  /** The visited scope nodes are the listed scope nodes, and each is queued
      by its scope. */
  lemma ScopeNodesQueued(m: map<string, INormNodes>, nodes: seq<Id>, defs0: seq<NodeDef>)
    requires Bounded(nodes, |defs0|) && Complete(m, Visited(nodes, |nodes|, Scopes(defs0)), Scopes(defs0))
    ensures forall v :: v in Visited(nodes, |nodes|, Scopes(defs0)) ==> v < |defs0|
    ensures forall v :: v in nodes && InMoments(defs0[v]) ==> NormId(defs0[v]) in m && v in m[NormId(defs0[v])].toStrip
  {
    VisitedAll(nodes, Scopes(defs0));
  }

  /** `w` is the single outside predecessor of a listed node of some scope,
      and `v` the final Add of the chain of a listed node of the same scope
      (`Singles` and `Chains` hold `OutsideOf` and `MemberChain` of every
      node, by `SinglesAt` and `ChainsAt`). */
  ghost predicate NormLink(w: Id, v: Id, nodes: seq<Id>, ins: seq<seq<Id>>, outs: seq<seq<Id>>, defs0: seq<NodeDef>)
    requires Table(ins, outs, |defs0|)
  {
    exists a, b :: a in nodes && b in nodes && a < |defs0| && b < |defs0| &&
      InMoments(defs0[a]) && InMoments(defs0[b]) && NormId(defs0[a]) == NormId(defs0[b]) &&
      Singles(ins, defs0)[a] == [w] &&
      Chains(ins, outs, defs0)[b].Some? && Chains(ins, outs, defs0)[b].value.final == v
  }

  /** A scope's recorded input and output are linked as the pass means them to be. */
  lemma LinkedIsNorm(m: map<string, INormNodes>, order: seq<string>, nodes: seq<Id>, ins: seq<seq<Id>>, outs: seq<seq<Id>>,
                     defs0: seq<NodeDef>, defs: seq<NodeDef>, v: Id, w: Id)
    requires Table(ins, outs, |defs0|) && Bounded(nodes, |defs0|)
    requires InputsSound(m, Visited(nodes, |nodes|, Scopes(defs0)), Scopes(defs0), Singles(ins, defs0))
    requires OutputsSound(m, Visited(nodes, |nodes|, Scopes(defs0)), Scopes(defs0), Chains(ins, outs, defs0), defs)
    requires LinkedBy(m, order, v, w)
    ensures NormLink(w, v, nodes, ins, outs, defs0)
  {
    var scope, sin, chains := Scopes(defs0), Singles(ins, defs0), Chains(ins, outs, defs0);
    var seen := Visited(nodes, |nodes|, scope);
    VisitedAll(nodes, scope);
    var id :| id in order && id in m && Bridges(m[id]) && m[id].output.value == v && m[id].input.value == w;
    var a :| a in seen && a < |scope| && scope[a] == Some(id) && sin[a] == [w];
    var b :| b in seen && b < |scope| && scope[b] == Some(id) && chains[b].Some? && chains[b].value.final == v;
  }

  /** `TFInstanceNormOptimizer.optimize(graph:)` on the graph's table, node
      list and definitions `defs0`; `defs` are the definitions after the
      pass. `mappings` and `order` are the dictionary the pass builds and the
      order its keys are wired in; `consistent` is whether the debug
      assertion of line 48 held. Every listed scope node is queued by its
      scope; the records and renamings are those the first loop describes
      (`Collected`); queued nodes of bridged scopes that are no scope's input
      or output end up lonely; the only edges added link a bridged scope's
      input to its output, which `LinkedIsNorm` relates to the graph; and
      every edge between two nodes no scope queued is kept. */
  method InstanceNormOptimizer(t: NodeTable, nodes: seq<Id>, defs0: seq<NodeDef>)
    returns (defs: seq<NodeDef>, mappings: map<string, INormNodes>, order: seq<string>, consistent: bool)
    requires t.Valid() && t.Size() == |defs0| && Bounded(nodes, |defs0|)
    modifies t
    ensures t.Valid() && t.Size() == old(t.Size()) && |defs| == |defs0|
    ensures (forall id :: id in mappings <==> id in order) && NoDup(order)
    ensures forall v :: v in nodes && InMoments(defs0[v]) ==> NormId(defs0[v]) in mappings && v in mappings[NormId(defs0[v])].toStrip
    ensures Collected(mappings, Visited(nodes, |nodes|, Scopes(defs0)), Scopes(defs0), Singles(old(t.edgeIn), defs0),
                      Chains(old(t.edgeIn), old(t.edgeOut), defs0), defs0, defs, consistent)
    ensures forall x :: 0 <= x < t.Size() && Queued(mappings, order, x) && !IsEnd(mappings, order, x) ==> t.IsLonely(x)
    ensures forall x :: 0 <= x < t.Size() && old(t.IsLonely(x)) && !IsEnd(mappings, order, x) ==> t.IsLonely(x)
    ensures forall v, w :: 0 <= v < t.Size() && w in t.edgeIn[v] ==> w in old(t.edgeIn)[v] || LinkedBy(mappings, order, v, w)
    ensures forall w, v :: 0 <= w < t.Size() && v in t.edgeOut[w] ==> v in old(t.edgeOut)[w] || LinkedBy(mappings, order, v, w)
    ensures forall id :: (id in mappings && Bridges(mappings[id]) &&
      mappings[id].input.value !in Gone(mappings, order, t.Size()) &&
      mappings[id].output.value !in Gone(mappings, order, t.Size())) ==>
      mappings[id].input.value in t.edgeIn[mappings[id].output.value]
    ensures Kept(old(t.edgeIn), t.edgeIn, Gone(mappings, order, t.Size()))
    ensures Kept(old(t.edgeOut), t.edgeOut, Gone(mappings, order, t.Size()))
    ensures old(t.WellFormed()) ==> t.WellFormed()
  {
    defs, mappings, order, consistent := CollectNorms(t, nodes, defs0);
    ScopeNodesQueued(mappings, nodes, defs0);
    CollectedBounded(mappings, Visited(nodes, |nodes|, Scopes(defs0)), t.edgeIn, t.edgeOut, defs0, defs, consistent);
    WireNorms(t, mappings, order);
  }
}
