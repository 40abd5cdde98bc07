/** Names and ops of TensorFlow nodes: the op constants of
    Sources/Helpers/Constants.swift, the `isTF…` predicates of
    Sources/Adapters/Tensorflow/String+TFParsing.swift, and the regular
    expressions the optimizers match node names against.

    Every pattern the optimizers use has the shape `word(_\d+)?/tail`
    (matched anywhere in the name, ignoring case), or is the read-name test `.* /read$` (without the space). Instead
    of a general regex engine the model gives that family its own matcher:
    `MatchAt` says where a match starting at a position ends, and
    `FirstMatchEnd` finds the end of the leftmost match, which is what
    `Regex.test` and `Regex.match` report. */
module TFNames {
  import opened Wrappers
  import opened Strings

  // The op names the converter recognises.
  const Add := "Add"
  const Assign := "Assign"
  const AvgPool := "AvgPool"
  const BatchToSpace := "BatchToSpaceND"
  const BatchNormGlobal := "BatchNormWithGlobalNormalization"
  const FusedBatchNorm := "FusedBatchNorm"
  const FusedBatchNormV3 := "FusedBatchNormV3"
  const BiasAdd := "BiasAdd"
  const Concat := "ConcatV2"
  const ConcatV1 := "Concat"
  const Conv := "Conv2D"
  const ConvTranspose := "Conv2DBackpropInput"
  const Const := "Const"
  const Dense := "Dense"
  const DepthwiseConv := "DepthwiseConv2dNative"
  const InstanceNormAdd := "InstanceNormAdd"
  const InstanceNormMul := "InstanceNormMul"
  const MatMul := "MatMul"
  const MaxPool := "MaxPool"
  const Mul := "Mul"
  const Pow := "Pow"
  const RealDiv := "RealDiv"
  const QuantizedConv2D := "QuantizedConv2D"
  const QuantizedRelu := "QuantizedRelu"
  const Relu := "Relu"
  const Reshape := "Reshape"
  const Shape := "Shape"
  const Sigmoid := "Sigmoid"
  const Softmax := "Softmax"
  const SpaceToBatch := "SpaceToBatchND"
  const Sub := "Sub"
  const Tanh := "Tanh"
  const Variable := "VariableV2"

  /** `isTFVariableOrConstOp`: a weight holder. */
  predicate IsVariableOrConst(op: string) {
    op == Variable || op == Const
  }

  /** `isTFConvOp || isTFDepthwiseConvOp`. */
  predicate IsConvolution(op: string) {
    op == Conv || op == DepthwiseConv
  }

  /** `isTFBiasAddOp || isTFAddOp`. */
  predicate IsAddition(op: string) {
    op == BiasAdd || op == Add
  }

  /** `isTFReLuOp || isTFTanhOp || isTFSigmoidOp`: an op `addNeuronIfThere` folds. */
  predicate IsNeuron(op: string) {
    op == Relu || op == Tanh || op == Sigmoid
  }

  /** The op predicates compare with the exact constant: the V3 batch norm and a lower-cased op are other ops. */
  lemma OpPredicatesExact()
    ensures FusedBatchNormV3 != FusedBatchNorm && !IsVariableOrConst("const") && !IsNeuron("relu")
    ensures forall op :: IsVariableOrConst(op) ==> !IsNeuron(op) && !IsAddition(op) && !IsConvolution(op)
  {
    assert FusedBatchNormV3[14] != ' ' && |FusedBatchNormV3| != |FusedBatchNorm|;
  }

  /** `isTFMovMean`, `isTFMovVariance`, `isTFGamma`, `isTFBeta`: case-sensitive name suffixes. */
  predicate IsMovingMean(name: string) { EndsWith(name, "/moving_mean") }
  predicate IsMovingVariance(name: string) { EndsWith(name, "/moving_variance") }
  predicate IsGamma(name: string) { EndsWith(name, "/gamma") }
  predicate IsBeta(name: string) { EndsWith(name, "/beta") }

  /** The suffix tests look at the end of the name only. */
  lemma SuffixNames(scope: string)
    ensures IsMovingMean(scope + "/moving_mean") && IsMovingVariance(scope + "/moving_variance")
    ensures IsGamma(scope + "/gamma") && IsBeta(scope + "/beta")
    ensures !IsGamma(scope + "/gamma_1")
  {
    EndsWithConcat(scope, "/moving_mean");
    EndsWithConcat(scope, "/moving_variance");
    EndsWithConcat(scope, "/gamma");
    EndsWithConcat(scope, "/beta");
    var s := scope + "/gamma_1";
    assert s[|s| - 1] == '1';
  }

  // Regular expressions (`Regex`, case-insensitive).

  /** ASCII case folding. */
  function Lower(c: char): char {
    if 'A' <= c <= 'Z' then (c as int + 32) as char else c
  }

  predicate SameIgnoringCase(a: char, b: char) {
    Lower(a) == Lower(b)
  }

  /** `s[i..]` begins with `lit`, ignoring case. */
  predicate LiteralAt(s: string, i: nat, lit: string) {
    i + |lit| <= |s| && forall k :: 0 <= k < |lit| ==> SameIgnoringCase(s[i + k], lit[k])
  }

  predicate IsDigit(c: char) {
    '0' <= c <= '9'
  }

  /** The end of the run of digits that starts at `i`. */
  function DigitsEnd(s: string, i: nat): (j: nat)
    requires i <= |s|
    ensures i <= j <= |s| && (j < |s| ==> !IsDigit(s[j]))
    ensures forall k :: i <= k < j ==> IsDigit(s[k])
    decreases |s| - i
  {
    if i < |s| && IsDigit(s[i]) then DigitsEnd(s, i + 1) else i
  }

  /** A pattern `word(_\d+)?/tail`. */
  datatype Pattern = Pattern(word: string, tail: string)

  const SavePattern := Pattern("save", "")
  const InitializerPattern := Pattern("Initializer", "")
  const RegularizerPattern := Pattern("Regularizer", "")
  const DropoutPattern := Pattern("dropout", "")
  const DropoutMulPattern := Pattern("dropout", "mul")
  const MomentsPattern := Pattern("moments", "")

  /** Where the `/` of a match of `word(_\d+)?/` that starts at `i` is. After `word` comes either
      `/` or `_`; `\d+` is greedy and no digit is a `/`, so backtracking finds no other match and
      at most one `/` position exists. (`/`, `_` and digits have no case.) */
  function SlashAt(s: string, i: nat, word: string): (q: Option<nat>)
    ensures q.Some? ==> i + |word| <= q.value < |s| && s[q.value] == '/' && LiteralAt(s, i, word)
  {
    if !LiteralAt(s, i, word) then None
    else
      var j := i + |word|;
      if j < |s| && s[j] == '/' then Some(j)
      else if j < |s| && s[j] == '_' && DigitsEnd(s, j + 1) > j + 1 && DigitsEnd(s, j + 1) < |s| && s[DigitsEnd(s, j + 1)] == '/' then
        Some(DigitsEnd(s, j + 1))
      else None
  }

  /** Where a match of `p` that starts at `i` ends. */
  function MatchAt(s: string, i: nat, p: Pattern): (r: Option<nat>)
    ensures r.Some? <==> SlashAt(s, i, p.word).Some? && LiteralAt(s, SlashAt(s, i, p.word).value + 1, p.tail)
    ensures r.Some? ==> r.value == SlashAt(s, i, p.word).value + 1 + |p.tail| <= |s|
  {
    match SlashAt(s, i, p.word)
    case None => None
    case Some(q) => if LiteralAt(s, q + 1, p.tail) then Some(q + 1 + |p.tail|) else None
  }

  /** The leftmost match starting at `i` or later, as (start, end). */
  function FirstMatchFrom(s: string, i: nat, p: Pattern): (r: Option<(nat, nat)>)
    requires i <= |s|
    ensures r.Some? ==> i <= r.value.0 <= |s| && MatchAt(s, r.value.0, p) == Some(r.value.1)
    ensures r.Some? ==> forall k :: i <= k < r.value.0 ==> MatchAt(s, k, p).None?
    ensures r.None? <==> forall k :: i <= k <= |s| ==> MatchAt(s, k, p).None?
    decreases |s| - i
  {
    if MatchAt(s, i, p).Some? then Some((i, MatchAt(s, i, p).value))
    else if i == |s| then None
    else FirstMatchFrom(s, i + 1, p)
  }

  /** `regex.test(name)`. */
  predicate Test(name: string, p: Pattern) {
    FirstMatchFrom(name, 0, p).Some?
  }

  /** `location + length` of `regex.match(name)`: the end of the leftmost match. */
  function FirstMatchEnd(name: string, p: Pattern): (e: nat)
    requires Test(name, p)
    ensures |p.word| + |p.tail| < e <= |name| && name[e - 1 - |p.tail|] == '/'
  {
    FirstMatchFrom(name, 0, p).value.1
  }

  /** `id(for:)` of a subgraph optimizer: the name up to the end of the first match. For the
      subgraph patterns (empty tail) the id ends with the matched `/`. */
  function IdFor(name: string, p: Pattern): (id: string)
    requires Test(name, p)
    ensures id <= name && |p.word| + |p.tail| < |id| && id[|id| - 1 - |p.tail|] == '/'
  {
    name[..FirstMatchEnd(name, p)]
  }

  /** A name is tested positive exactly when some position starts a match. */
  lemma TestIsSomeMatch(name: string, p: Pattern)
    ensures Test(name, p) <==> exists i :: 0 <= i <= |name| && MatchAt(name, i, p).Some?
  {
    if exists i :: 0 <= i <= |name| && MatchAt(name, i, p).Some? {
      var i :| 0 <= i <= |name| && MatchAt(name, i, p).Some?;
      assert !(forall k :: 0 <= k <= |name| ==> MatchAt(name, k, p).None?);
    }
  }

  /** Every name the `dropout(_\d+)?/mul` test accepts is in the dropout subgraph, whose first
      match starts no later. */
  lemma DropoutMulInSubgraph(name: string)
    requires Test(name, DropoutMulPattern)
    ensures Test(name, DropoutPattern)
    ensures FirstMatchFrom(name, 0, DropoutPattern).value.0 <= FirstMatchFrom(name, 0, DropoutMulPattern).value.0
  {
    var m := FirstMatchFrom(name, 0, DropoutMulPattern).value;
    assert MatchAt(name, m.0, DropoutPattern).Some?;
  }

  /** Whether a digit run ends before `|t|` is the same in a prefix `t` of `s`. */
  lemma {:induction false} DigitsEndPrefix(s: string, t: string, i: nat)
    requires t <= s && i <= |t|
    ensures DigitsEnd(s, i) < |t| ==> DigitsEnd(t, i) == DigitsEnd(s, i)
    ensures DigitsEnd(t, i) < |t| ==> DigitsEnd(s, i) == DigitsEnd(t, i)
    decreases |t| - i
  {
    if i < |t| {
      assert s[i] == t[i];
      if IsDigit(s[i]) {
        DigitsEndPrefix(s, t, i + 1);
      }
    }
  }

  /** A match that lies inside a prefix `t` of `s` is found in `t` as well... */
  lemma MatchIntoPrefix(s: string, t: string, k: nat, p: Pattern)
    requires t <= s && k <= |t|
    requires MatchAt(s, k, p).Some? && MatchAt(s, k, p).value <= |t|
    ensures MatchAt(t, k, p) == MatchAt(s, k, p)
  {
    var j := k + |p.word|;
    var q := SlashAt(s, k, p.word).value;
    DigitsEndPrefix(s, t, j + 1);
    assert LiteralAt(t, k, p.word);
    assert LiteralAt(t, q + 1, p.tail);
  }

  /** ... and a match found in the prefix is one of `s`. */
  lemma MatchFromPrefix(s: string, t: string, k: nat, p: Pattern)
    requires t <= s && k <= |t|
    requires MatchAt(t, k, p).Some?
    ensures MatchAt(s, k, p) == MatchAt(t, k, p)
  {
    var j := k + |p.word|;
    var q := SlashAt(t, k, p.word).value;
    DigitsEndPrefix(s, t, j + 1);
    assert LiteralAt(s, k, p.word);
    assert LiteralAt(s, q + 1, p.tail);
  }

  /** The id of a subgraph node names its own subgraph: `id(for:)` applied to an id gives it back. */
  lemma IdForIdempotent(name: string, p: Pattern)
    requires Test(name, p)
    ensures Test(IdFor(name, p), p) && IdFor(IdFor(name, p), p) == IdFor(name, p)
  {
    var id := IdFor(name, p);
    var m := FirstMatchFrom(name, 0, p).value;
    MatchIntoPrefix(name, id, m.0, p);
    forall k | 0 <= k < m.0 ensures MatchAt(id, k, p).None? {
      if MatchAt(id, k, p).Some? {
        MatchFromPrefix(name, id, k, p);
      }
    }
    var n := FirstMatchFrom(id, 0, p);
    assert n.Some? && n.value == m;
    assert id[..|id|] == id;
  }

  /** `isTFVariableReadName` (any text, then `/read` at the end): the name ends with `/read`, ignoring case. */
  predicate IsReadName(name: string) {
    |name| >= 5 && LiteralAt(name, |name| - 5, "/read")
  }

  /** A read name of a scope is recognised, and the suffix test ignores case. */
  lemma ReadNames(scope: string)
    ensures IsReadName(scope + "/read") && IsReadName(scope + "/READ")
    ensures !IsReadName(scope + "/read_1")
  {
    var s := scope + "/read";
    assert forall k :: 0 <= k < 5 ==> s[|s| - 5 + k] == "/read"[k];
    var t := scope + "/READ";
    assert forall k :: 0 <= k < 5 ==> t[|t| - 5 + k] == "/READ"[k];
    var u := scope + "/read_1";
    assert !SameIgnoringCase(u[|u| - 1], "/read"[4]);
  }
}
