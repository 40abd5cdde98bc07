/** The TensorFlow converter: weight and bias selection
    (Sources/Adapters/Tensorflow/TFWeightData.swift), the default mapper
    table (Sources/Adapters/Tensorflow/TFConverter+Mappers.swift) and the
    conversion driver (Sources/Adapters/Tensorflow/TFConverter.swift).
    A mapper turns one graph node into a network layer, described here by
    the `MappedLayer` value the layer is built from; a `fatalError` is a
    `Failure`. */
module TFConverter {
  import opened Wrappers
  import opened Graph
  import opened Sizes
  import opened TFProto
  import TFNames
  import opened TFGraphs
  import opened TFOptimizers
  import opened TFSubgraphs
  import opened TFRewrites
  import opened TFInstanceNorm

  /** The incoming lists of a graph of `n` nodes. */
  predicate InputLists(ins: seq<seq<Id>>, n: nat) {
    |ins| == n && forall v :: 0 <= v < n ==> Bounded(ins[v], n) && BoundedAt(ins[v], n)
  }

  // ---------------------------------------------------------------------
  // Weight data

  /** `TFWeightData`. */
  datatype WeightData = WeightData(weights: Option<seq<bv8>>, bias: Option<seq<bv8>>, weightShape: seq<int>, useBias: bool)

  /** `filter { $0.nodeDef.isTFVariableOrConstOp }`: the weight holders of `list`, in order. */
  function WeightInputs(list: seq<Id>, defs: seq<NodeDef>): (r: seq<Id>)
    ensures |r| <= |list| && Bounded(r, |defs|) && BoundedAt(r, |defs|)
    ensures forall u :: u in r <==> u in list && Picked(u, defs, IsWeightDef)
    decreases |list|
  {
    if list == [] then []
    else
      var init, u := list[..|list| - 1], list[|list| - 1];
      assert list == init + [u];
      WeightInputs(init, defs) + (if Picked(u, defs, IsWeightDef) then [u] else [])
  }

  /** Filtering keeps the order: the holders of a concatenation are those of its parts. */
  lemma {:induction false} WeightInputsAppend(a: seq<Id>, b: seq<Id>, defs: seq<NodeDef>)
    ensures WeightInputs(a + b, defs) == WeightInputs(a, defs) + WeightInputs(b, defs)
    decreases |b|
  {
    if b == [] {
      assert a + b == a;
    } else {
      var init, u := b[..|b| - 1], b[|b| - 1];
      assert b == init + [u];
      assert (a + b)[..|a + b| - 1] == a + init;
      WeightInputsAppend(a, init, defs);
    }
  }

  /** Lines 47-51: a Const holder's own tensor bytes, otherwise those of its
      first incoming node when that node is a Const. */
  function HeldData(ins: seq<seq<Id>>, defs: seq<NodeDef>, u: Id): Option<seq<bv8>>
    requires InputLists(ins, |defs|) && u < |defs|
  {
    if IsConstDef(defs[u]) then ValueData(defs[u])
    else if ins[u] != [] && IsConstDef(defs[ins[u][0]]) then ValueData(defs[ins[u][0]])
    else None
  }

  /** Lines 53-56 (and the instance-norm and batch-norm mappers): a Const
      holder's own bytes, otherwise the bytes of its first incoming node,
      whatever its op. */
  function FedData(ins: seq<seq<Id>>, defs: seq<NodeDef>, u: Id): Option<seq<bv8>>
    requires InputLists(ins, |defs|) && u < |defs|
  {
    if IsConstDef(defs[u]) then ValueData(defs[u])
    else if ins[u] != [] then ValueData(defs[ins[u][0]])
    else None
  }

  /** The bias rule lacks the weights rule's Const check on the feeding node,
      but only a Const carries value data, so both rules read the same bytes. */
  lemma FedDataIsHeldData(ins: seq<seq<Id>>, defs: seq<NodeDef>, u: Id)
    requires InputLists(ins, |defs|) && u < |defs|
    ensures FedData(ins, defs, u) == HeldData(ins, defs, u)
  {
    if !IsConstDef(defs[u]) && ins[u] != [] && !IsConstDef(defs[ins[u][0]]) {
      assert ValueData(defs[ins[u][0]]).None?;
    }
  }

  /** Held bytes are the tensor content of a Const: the holder itself or the
      first node feeding it. */
  lemma HeldDataIsConstContent(ins: seq<seq<Id>>, defs: seq<NodeDef>, u: Id)
    requires InputLists(ins, |defs|) && u < |defs|
    ensures HeldData(ins, defs, u).Some? ==>
      exists c :: c in [u] + ins[u][..if ins[u] == [] then 0 else 1] &&
        defs[c].op == TFNames.Const && "value" in defs[c].attr &&
        HeldData(ins, defs, u).value == AttrTensor(defs[c].attr["value"]).tensorContent
  {
    var front := [u] + ins[u][..if ins[u] == [] then 0 else 1];
    if HeldData(ins, defs, u).Some? {
      if IsConstDef(defs[u]) {
        assert front[0] == u;
      } else {
        assert front[1] == ins[u][0];
      }
    }
  }

  /** `shape?.isBias == true`. */
  predicate BiasShaped(def: NodeDef) {
    ShapeOf(def).Some? && IsBias(ShapeOf(def).value)
  }

  /** Lines 24-38: which holder is the weights and which, if any, the bias.
      One holder is the weights; of two, the first with a one-dimensional
      shape is the bias and the other one the weights. */
  function PickHolders(vars: seq<Id>, defs: seq<NodeDef>): (r: Result<(Id, Option<Id>)>)
    requires BoundedAt(vars, |defs|)
    ensures r.Success? <==> |vars| == 1 || (|vars| == 2 && (BiasShaped(defs[vars[0]]) || BiasShaped(defs[vars[1]])))
    ensures r.Success? ==> r.value.0 in vars && (r.value.1.None? <==> |vars| == 1)
    ensures r.Success? && r.value.1.Some? ==>
      (r.value.1.value in vars && BiasShaped(defs[r.value.1.value]) && multiset{r.value.0, r.value.1.value} == multiset(vars))
    ensures |vars| == 2 && BiasShaped(defs[vars[0]]) ==> r == Success((vars[1], Some(vars[0])))
  {
    if |vars| == 1 then Success((vars[0], None))
    else if |vars| == 2 then
      assert vars == [vars[0], vars[1]];
      if BiasShaped(defs[vars[0]]) then Success((vars[1], Some(vars[0])))
      else if BiasShaped(defs[vars[1]]) then Success((vars[0], Some(vars[1])))
      else Failure("Conv2D(Transpose) must have 1 or 2 Variable input and one of them must be a bias")
    else Failure("Conv2D(Transpose) must have 1 or 2 Variable input")
  }

  /** `getWeightData(node:)`: the holders are picked, the weights need a
      shape, and `useBias` records whether a bias holder was picked. */
  function GetWeightData(ins: seq<seq<Id>>, defs: seq<NodeDef>, v: Id): (r: Result<WeightData>)
    requires InputLists(ins, |defs|) && v < |defs|
    ensures var picked := PickHolders(WeightInputs(ins[v], defs), defs);
      r.Success? <==> picked.Success? && ShapeOf(defs[picked.value.0]).Some?
    ensures r.Success? ==> (r.value.useBias <==> |WeightInputs(ins[v], defs)| == 2)
    ensures r.Success? && r.value.bias.Some? ==> r.value.useBias
    ensures r.Success? ==> (
      exists w :: w in WeightInputs(ins[v], defs) &&
        ShapeOf(defs[w]) == Some(r.value.weightShape) && r.value.weights == HeldData(ins, defs, w))
  {
    var vars := WeightInputs(ins[v], defs);
    match PickHolders(vars, defs)
    case Failure(e) => Failure(e)
    case Success((w, b)) =>
      match ShapeOf(defs[w])
      case None => Failure("Conv2D(Transpose) has no shape information")
      case Some(shape) =>
        var bias := if b.Some? then FedData(ins, defs, b.value) else None;
        Success(WeightData(HeldData(ins, defs, w), bias, shape, b.Some?))
  }

  /** A single holder is the weights, whatever its shape, and no bias is used. */
  lemma SingleHolderIsWeights(ins: seq<seq<Id>>, defs: seq<NodeDef>, v: Id)
    requires InputLists(ins, |defs|) && v < |defs|
    requires |WeightInputs(ins[v], defs)| == 1
    ensures var w := WeightInputs(ins[v], defs)[0];
      GetWeightData(ins, defs, v) ==
        if ShapeOf(defs[w]).None? then Failure("Conv2D(Transpose) has no shape information")
        else Success(WeightData(HeldData(ins, defs, w), None, ShapeOf(defs[w]).value, false))
  {
  }

  /** With two one-dimensional holders the first is the bias: the weights
      come from the second, and both data follow the Const rule. */
  lemma FirstBiasWins(ins: seq<seq<Id>>, defs: seq<NodeDef>, v: Id)
    requires InputLists(ins, |defs|) && v < |defs|
    requires var vars := WeightInputs(ins[v], defs); |vars| == 2 && BiasShaped(defs[vars[0]])
    ensures var vars := WeightInputs(ins[v], defs);
      GetWeightData(ins, defs, v) ==
        if ShapeOf(defs[vars[1]]).None? then Failure("Conv2D(Transpose) has no shape information")
        else Success(WeightData(HeldData(ins, defs, vars[1]), HeldData(ins, defs, vars[0]), ShapeOf(defs[vars[1]]).value, true))
  {
    var vars := WeightInputs(ins[v], defs);
    FedDataIsHeldData(ins, defs, vars[0]);
  }

  // ---------------------------------------------------------------------
  // Mappers

  /** `PoolingType`. */
  datatype PoolingType = MaxPooling | AvgPooling

  /** Weights that the layer receives reordered from HWIO to OHWI over `shape`
      (`HWIOtoOHWI`, modelled element-wise in the Transpose module). */
  datatype Reordered = OHWI(hwio: seq<bv8>, shape: Shape)

  /** What a mapper builds: the layer class and the arguments of its initialiser. */
  datatype MappedLayer =
    | AddLayer(id: string)
    | NeuronLayer(neuron: ActivationNeuron, id: string)
    | PoolingLayer(pooling: PoolingType, padding: Padding, kernelWidth: int, kernelHeight: int, strideX: int, strideY: int, id: string)
    | SoftmaxLayer(id: string)
    | ConvolutionLayer(size: ConvSize, neuron: ActivationNeuron, useBias: bool, padding: Padding,
                       ohwiWeights: Option<Reordered>, bias: Option<seq<bv8>>, id: string)
    | ConvTransposeLayer(size: ConvSize, weights: Option<seq<bv8>>, bias: Option<seq<bv8>>, id: string)
    | FullyConnectedLayer(neurons: int, neuron: ActivationNeuron, useBias: bool,
                          weights: Option<seq<bv8>>, bias: Option<seq<bv8>>, id: string)
    | InstanceNormLayer(scale: Option<seq<bv8>>, shift: Option<seq<bv8>>, id: string)
    | ConcatLayer(axis: Axis, id: string)
    | BatchNormLayer(mean: Option<seq<bv8>>, variance: Option<seq<bv8>>, offset: Option<seq<bv8>>,
                     scale: Option<seq<bv8>>, epsilon: real, id: string)

  /** The mapper closures of `setupMappers`. */
  datatype Mapper =
    | AddMapper
    | NeuronMapper(kind: ActivationNeuron)
    | PoolingMapper(pooling: PoolingType)
    | SoftmaxMapper
    | ConvMapper
    | ConvTransposeMapper
    | DenseMapper
    | InstanceNormMapper
    | ConcatMapper
    | BatchNormMapper

  /** The dictionary `setupMappers` fills, keyed by op. */
  const DefaultMappers: map<string, Mapper> := map[
    TFNames.Add := AddMapper,
    TFNames.Relu := NeuronMapper(ReluNeuron),
    TFNames.QuantizedRelu := NeuronMapper(ReluNeuron),
    TFNames.Tanh := NeuronMapper(TanhNeuron),
    TFNames.Sigmoid := NeuronMapper(SigmoidNeuron),
    TFNames.MaxPool := PoolingMapper(MaxPooling),
    TFNames.AvgPool := PoolingMapper(AvgPooling),
    TFNames.Softmax := SoftmaxMapper,
    TFNames.Conv := ConvMapper,
    TFNames.QuantizedConv2D := ConvMapper,
    TFNames.ConvTranspose := ConvTransposeMapper,
    TFNames.Dense := DenseMapper,
    TFNames.InstanceNormAdd := InstanceNormMapper,
    TFNames.Concat := ConcatMapper,
    TFNames.ConcatV1 := ConcatMapper,
    TFNames.BatchNormGlobal := BatchNormMapper]

  /** The neuron ops become the matching neuron layer, QuantizedRelu a relu. */
  lemma NeuronMappers()
    ensures DefaultMappers[TFNames.Relu] == DefaultMappers[TFNames.QuantizedRelu] == NeuronMapper(ReluNeuron)
    ensures DefaultMappers[TFNames.Tanh] == NeuronMapper(TanhNeuron) && DefaultMappers[TFNames.Sigmoid] == NeuronMapper(SigmoidNeuron)
    ensures forall op :: op in DefaultMappers && DefaultMappers[op].NeuronMapper? ==> TFNames.IsNeuron(op) || op == TFNames.QuantizedRelu
  {
  }

  /** The two convolution ops share a mapper, and so do the two concat ops. */
  lemma SharedMappers()
    ensures forall op :: op in DefaultMappers && DefaultMappers[op] == ConvMapper <==> op == TFNames.Conv || op == TFNames.QuantizedConv2D
    ensures forall op :: op in DefaultMappers && DefaultMappers[op] == ConcatMapper <==> op == TFNames.Concat || op == TFNames.ConcatV1
  {
  }

  /** Weight holders, BiasAdd, MatMul, Reshape, the fused batch norm and the
      depthwise convolution have no mapper: the optimizers must rewrite them
      away, or they are dropped. */
  lemma UnmappedOps()
    ensures forall op :: TFNames.IsVariableOrConst(op) ==> op !in DefaultMappers
    ensures TFNames.BiasAdd !in DefaultMappers && TFNames.MatMul !in DefaultMappers && TFNames.Reshape !in DefaultMappers
    ensures TFNames.FusedBatchNorm !in DefaultMappers && TFNames.DepthwiseConv !in DefaultMappers
  {
  }

  /** An optional attribute read that traps or is missing counts as absent. */
  predicate Present<T>(x: Result<Option<T>>) {
    x.Success? && x.value.Some?
  }

  /** The `padding` attribute as `PaddingType`. */
  function PaddingOf(def: NodeDef): Padding
    requires "padding" in def.attr
  {
    PaddingFromTF(AttrString(def.attr["padding"]))
  }

  /** Lines 33-46: padding, strides and kernel size are all required. */
  function MapPooling(p: PoolingType, def: NodeDef): (r: Result<MappedLayer>)
    ensures r.Success? <==> "padding" in def.attr && Present(Strides(def)) && Present(Ksize(def))
    ensures r.Success? ==> r.value.PoolingLayer? && r.value.pooling == p && r.value.id == def.name
  {
    if "padding" !in def.attr || !Present(Strides(def)) || !Present(Ksize(def)) then Failure("Cannot create MaxPool")
    else
      var (sx, sy) := Strides(def).value.value;
      var (kw, kh) := Ksize(def).value.value;
      Success(PoolingLayer(p, PaddingOf(def), kw, kh, sx, sy, def.name))
  }

  /** An NHWC pooling node: the kernel is `ksize[2]` wide and `ksize[1]`
      high, the strides `strides[2]` and `strides[1]`, and only `"SAME"` is
      SAME padding. */
  lemma PoolingFromNHWC(p: PoolingType, def: NodeDef, pad: string, k: seq<int>, s: seq<int>)
    requires def.attr == map["padding" := StringAttr(pad), "ksize" := IntListAttr(k), "strides" := IntListAttr(s),
                             "data_format" := StringAttr("NHWC")]
    requires |k| == 4 && |s| == 4
    ensures MapPooling(p, def) == Success(PoolingLayer(p, PaddingFromTF(pad), k[2], k[1], s[2], s[1], def.name))
    ensures MapPooling(p, def).value.padding == Same <==> pad == "SAME"
  {
    assert DataFormat(def) == Some("NHWC");
  }

  /** Lines 59-85: padding and strides are required, then the weight data;
      the weight shape gives the convolution size (reading its four
      dimensions), embedded weights are reordered to OHWI, and the neuron,
      bias flag and bias come from the node and its weight data. */
  function MapConv(ins: seq<seq<Id>>, defs: seq<NodeDef>, v: Id): (r: Result<MappedLayer>)
    requires InputLists(ins, |defs|) && v < |defs|
    ensures r.Success? <==> ("padding" in defs[v].attr && Present(Strides(defs[v])) &&
      GetWeightData(ins, defs, v).Success? && |GetWeightData(ins, defs, v).value.weightShape| >= 4)
    ensures r.Success? ==>
      var wd, (sx, sy) := GetWeightData(ins, defs, v).value, Strides(defs[v]).value.value;
      r.value.ConvolutionLayer? && r.value.id == defs[v].name &&
      r.value.size == ConvSize(wd.weightShape[3], wd.weightShape[1], wd.weightShape[0], sx, sy) &&
      r.value.neuron == ActivationNeuronOf(defs[v]) && r.value.padding == PaddingOf(defs[v]) &&
      r.value.useBias == wd.useBias && r.value.bias == wd.bias &&
      (r.value.ohwiWeights.Some? <==> wd.weights.Some?) &&
      (r.value.ohwiWeights.Some? ==> r.value.ohwiWeights.value == OHWI(wd.weights.value, ToShape(wd.weightShape)))
  {
    var def := defs[v];
    if "padding" !in def.attr || !Present(Strides(def)) then Failure("Cannot create Conv2D")
    else
      match GetWeightData(ins, defs, v)
      case Failure(e) => Failure(e)
      case Success(wd) =>
        if |wd.weightShape| < 4 then Failure("Index out of range")
        else
          var (sx, sy) := Strides(def).value.value;
          var weights := if wd.weights.Some? then Some(OHWI(wd.weights.value, ToShape(wd.weightShape))) else None;
          Success(ConvolutionLayer(ConvSizeFromShape(wd.weightShape, sx, sy), ActivationNeuronOf(def), wd.useBias,
                                   PaddingOf(def), weights, wd.bias, def.name))
  }

  /** Lines 88-106: strides and weight data are required; the output
      channels come from dimension 2 of the weight shape. Padding, the
      neuron and the bias flag are not read. */
  function MapConvTranspose(ins: seq<seq<Id>>, defs: seq<NodeDef>, v: Id): (r: Result<MappedLayer>)
    requires InputLists(ins, |defs|) && v < |defs|
    ensures r.Success? <==> (Present(Strides(defs[v])) &&
      GetWeightData(ins, defs, v).Success? && |GetWeightData(ins, defs, v).value.weightShape| >= 3)
    ensures r.Success? ==>
      var wd, (sx, sy) := GetWeightData(ins, defs, v).value, Strides(defs[v]).value.value;
      r.value.ConvTransposeLayer? && r.value.id == defs[v].name &&
      r.value.size == ConvSize(wd.weightShape[2], wd.weightShape[1], wd.weightShape[0], sx, sy) &&
      r.value.weights == wd.weights && r.value.bias == wd.bias
  {
    var def := defs[v];
    if !Present(Strides(def)) then Failure("Cannot create Conv2DTranspose")
    else
      match GetWeightData(ins, defs, v)
      case Failure(e) => Failure(e)
      case Success(wd) =>
        if |wd.weightShape| < 3 then Failure("Index out of range")
        else
          var (sx, sy) := Strides(def).value.value;
          var shape := wd.weightShape;
          Success(ConvTransposeLayer(ConvSize(InputChannels(shape), KernelWidth(shape), KernelHeight(shape), sx, sy),
                                     wd.weights, wd.bias, def.name))
  }

  /** Lines 110-126: weight data is required; the neuron count is dimension 1
      of the weight shape. */
  function MapDense(ins: seq<seq<Id>>, defs: seq<NodeDef>, v: Id): (r: Result<MappedLayer>)
    requires InputLists(ins, |defs|) && v < |defs|
    ensures r.Success? <==> GetWeightData(ins, defs, v).Success? && |GetWeightData(ins, defs, v).value.weightShape| >= 2
    ensures r.Success? ==>
      var wd := GetWeightData(ins, defs, v).value;
      r.value.FullyConnectedLayer? && r.value.id == defs[v].name && r.value.neurons == wd.weightShape[1] &&
      r.value.neuron == ActivationNeuronOf(defs[v]) && r.value.useBias == wd.useBias &&
      r.value.weights == wd.weights && r.value.bias == wd.bias
  {
    match GetWeightData(ins, defs, v)
    case Failure(e) => Failure(e)
    case Success(wd) =>
      if |wd.weightShape| < 2 then Failure("Index out of range")
      else Success(FullyConnectedLayer(KernelWidth(wd.weightShape), ActivationNeuronOf(defs[v]), wd.useBias,
                                       wd.weights, wd.bias, defs[v].name))
  }

  predicate IsNormMulDef(def: NodeDef) { def.op == TFNames.InstanceNormMul }

  /** Lines 130-153: the shift is the first weight holder among the inputs,
      the scale the first input of the first InstanceNormMul input, which
      must be a weight holder too. */
  function MapInstanceNorm(ins: seq<seq<Id>>, defs: seq<NodeDef>, v: Id): (r: Result<MappedLayer>)
    requires InputLists(ins, |defs|) && v < |defs|
    ensures var shiftVar, mul := FirstWhere(ins[v], defs, IsWeightDef), FirstWhere(ins[v], defs, IsNormMulDef);
      r.Success? <==> shiftVar.Some? && mul.Some? && ins[mul.value] != [] && IsWeightDef(defs[ins[mul.value][0]])
    ensures r.Success? ==>
      var shiftVar, mul := FirstWhere(ins[v], defs, IsWeightDef).value, FirstWhere(ins[v], defs, IsNormMulDef).value;
      r.value == InstanceNormLayer(HeldData(ins, defs, ins[mul][0]), HeldData(ins, defs, shiftVar), defs[v].name)
  {
    var shiftVar, mul := FirstWhere(ins[v], defs, IsWeightDef), FirstWhere(ins[v], defs, IsNormMulDef);
    if shiftVar.None? || mul.None? || ins[mul.value] == [] || !IsWeightDef(defs[ins[mul.value][0]]) then
      Failure("Could not parse Instance norm node")
    else
      var scaleVar := ins[mul.value][0];
      FedDataIsHeldData(ins, defs, scaleVar);
      FedDataIsHeldData(ins, defs, shiftVar.value);
      Success(InstanceNormLayer(FedData(ins, defs, scaleVar), FedData(ins, defs, shiftVar.value), defs[v].name))
  }

  /** `$0.nodeDef.name == name`. */
  function NamedTest(name: string): NodeDef -> bool {
    (d: NodeDef) => d.name == name
  }

  /** Lines 159-162: the input named `<name>/axis`, else the one named
      `<name>/concat_dim`. */
  function AxisNode(ins: seq<seq<Id>>, defs: seq<NodeDef>, v: Id): (r: Option<Id>)
    requires InputLists(ins, |defs|) && v < |defs|
    ensures r.Some? ==> r.value in ins[v] && r.value < |defs|
    ensures r.Some? ==> defs[r.value].name == defs[v].name + "/axis" || defs[r.value].name == defs[v].name + "/concat_dim"
    ensures (exists u :: u in ins[v] && u < |defs| && defs[u].name == defs[v].name + "/axis") ==>
      r.Some? && defs[r.value].name == defs[v].name + "/axis"
    ensures r.None? <==> forall u :: u in ins[v] && u < |defs| ==>
      defs[u].name != defs[v].name + "/axis" && defs[u].name != defs[v].name + "/concat_dim"
  {
    var v2 := FirstWhere(ins[v], defs, NamedTest(defs[v].name + "/axis"));
    if v2.Some? then v2
    else
      var v1 := FirstWhere(ins[v], defs, NamedTest(defs[v].name + "/concat_dim"));
      assert forall u :: u in ins[v] && u < |defs| ==>
        (Picked(u, defs, NamedTest(defs[v].name + "/axis")) <==> defs[u].name == defs[v].name + "/axis");
      assert forall u :: u in ins[v] && u < |defs| ==>
        (Picked(u, defs, NamedTest(defs[v].name + "/concat_dim")) <==> defs[u].name == defs[v].name + "/concat_dim");
      v1
  }

  /** `attr["value"]?.tensor.intVal.first`. */
  function FirstIntValue(def: NodeDef): Option<int> {
    if "value" in def.attr && AttrTensor(def.attr["value"]).intVal != [] then
      Some(AttrTensor(def.attr["value"]).intVal[0])
    else None
  }

  /** Lines 158-168: the axis node must exist and its first integer must be
      an NHWC index of an axis. */
  function MapConcat(ins: seq<seq<Id>>, defs: seq<NodeDef>, v: Id): (r: Result<MappedLayer>)
    requires InputLists(ins, |defs|) && v < |defs|
    ensures var a := AxisNode(ins, defs, v);
      r.Success? <==> a.Some? && FirstIntValue(defs[a.value]).Some? && 1 <= FirstIntValue(defs[a.value]).value <= 3
    ensures r.Success? ==> (r.value.ConcatLayer? && r.value.id == defs[v].name &&
      AxisToTF(r.value.axis) == FirstIntValue(defs[AxisNode(ins, defs, v).value]).value)
  {
    match AxisNode(ins, defs, v)
    case None => Failure("Cannot create ConcatV2. Missing input node")
    case Some(a) =>
      match FirstIntValue(defs[a])
      case None => Failure("Cannot create ConcatV2. Missing or invalid attribute axis.")
      case Some(index) =>
        match AxisFromTF(index)
        case None => Failure("Cannot create ConcatV2. Missing or invalid attribute axis.")
        case Some(axis) =>
          AxisFromTFInverse(axis, index);
          Success(ConcatLayer(axis, defs[v].name))
  }

  predicate IsMovingMeanDef(def: NodeDef) { TFNames.IsMovingMean(def.name) }
  predicate IsMovingVarianceDef(def: NodeDef) { TFNames.IsMovingVariance(def.name) }
  predicate IsGammaDef(def: NodeDef) { TFNames.IsGamma(def.name) }
  predicate IsBetaDef(def: NodeDef) { TFNames.IsBeta(def.name) }

  /** Line 206: `attr["scale_after_normalization"]?.b == false`, which needs the attribute. */
  predicate ScaleRequested(def: NodeDef) {
    "scale_after_normalization" in def.attr && !AttrBool(def.attr["scale_after_normalization"])
  }

  /** Line 214: `attr["variance_epsilon"]?.f ?? 0.001`. */
  function Epsilon(def: NodeDef): (e: real)
    ensures "variance_epsilon" !in def.attr ==> e == 0.001
  {
    if "variance_epsilon" in def.attr then AttrFloat(def.attr["variance_epsilon"]) else 0.001
  }

  /** Lines 174-215: among the weight holders, the first moving mean, moving
      variance, gamma and beta are all required; the scale (gamma) is read
      only when explicitly not applied after normalisation. */
  function MapBatchNorm(ins: seq<seq<Id>>, defs: seq<NodeDef>, v: Id): (r: Result<MappedLayer>)
    requires InputLists(ins, |defs|) && v < |defs|
    ensures var vars := WeightInputs(ins[v], defs);
      r.Success? <==> (exists u :: u in vars && Picked(u, defs, IsMovingMeanDef)) && (exists u :: u in vars && Picked(u, defs, IsMovingVarianceDef)) &&
                      (exists u :: u in vars && Picked(u, defs, IsGammaDef)) && (exists u :: u in vars && Picked(u, defs, IsBetaDef))
    ensures r.Success? ==> r.value.BatchNormLayer? && r.value.id == defs[v].name && r.value.epsilon == Epsilon(defs[v])
    ensures r.Success? && r.value.scale.Some? ==> ScaleRequested(defs[v])
    ensures r.Success? ==> var vars := WeightInputs(ins[v], defs);
      r.value.mean == HeldData(ins, defs, FirstWhere(vars, defs, IsMovingMeanDef).value) &&
      r.value.variance == HeldData(ins, defs, FirstWhere(vars, defs, IsMovingVarianceDef).value) &&
      r.value.offset == HeldData(ins, defs, FirstWhere(vars, defs, IsBetaDef).value) &&
      (ScaleRequested(defs[v]) ==> r.value.scale == HeldData(ins, defs, FirstWhere(vars, defs, IsGammaDef).value))
  {
    var vars := WeightInputs(ins[v], defs);
    var mean, variance := FirstWhere(vars, defs, IsMovingMeanDef), FirstWhere(vars, defs, IsMovingVarianceDef);
    var gamma, beta := FirstWhere(vars, defs, IsGammaDef), FirstWhere(vars, defs, IsBetaDef);
    if mean.None? || variance.None? || gamma.None? || beta.None? then Failure("Could not parse Batch norm node")
    else
      FedDataIsHeldData(ins, defs, mean.value);
      FedDataIsHeldData(ins, defs, variance.value);
      FedDataIsHeldData(ins, defs, beta.value);
      FedDataIsHeldData(ins, defs, gamma.value);
      var scale := if ScaleRequested(defs[v]) then FedData(ins, defs, gamma.value) else None;
      Success(BatchNormLayer(FedData(ins, defs, mean.value), FedData(ins, defs, variance.value),
                             FedData(ins, defs, beta.value), scale, Epsilon(defs[v]), defs[v].name))
  }

  /** `mapper(node)`: every layer takes the node's name as its id; Add, the
      neurons and Softmax never fail. */
  function MapNode(m: Mapper, ins: seq<seq<Id>>, defs: seq<NodeDef>, v: Id): (r: Result<MappedLayer>)
    requires InputLists(ins, |defs|) && v < |defs|
    ensures r.Success? ==> r.value.id == defs[v].name
    ensures m.AddMapper? || m.NeuronMapper? || m.SoftmaxMapper? ==> r.Success?
    ensures m.NeuronMapper? ==> r == Success(NeuronLayer(m.kind, defs[v].name))
  {
    match m
    case AddMapper => Success(AddLayer(defs[v].name))
    case NeuronMapper(n) => Success(NeuronLayer(n, defs[v].name))
    case PoolingMapper(p) => MapPooling(p, defs[v])
    case SoftmaxMapper => Success(SoftmaxLayer(defs[v].name))
    case ConvMapper => MapConv(ins, defs, v)
    case ConvTransposeMapper => MapConvTranspose(ins, defs, v)
    case DenseMapper => MapDense(ins, defs, v)
    case InstanceNormMapper => MapInstanceNorm(ins, defs, v)
    case ConcatMapper => MapConcat(ins, defs, v)
    case BatchNormMapper => MapBatchNorm(ins, defs, v)
  }

  // ---------------------------------------------------------------------
  // translateOperators

  /** The conversion so far: the layers, the `processed` dictionary from node
      names to layer positions, and the layers each layer was linked from. */
  datatype Translated = Translated(layers: seq<MappedLayer>, processed: map<string, nat>, inputs: seq<seq<nat>>)

  /** How many nodes of `nodes` have an op with a mapper. */
  function MappedCount(mappers: map<string, Mapper>, defs: seq<NodeDef>, nodes: seq<Id>): (c: nat)
    requires BoundedAt(nodes, |defs|)
    ensures c <= |nodes|
    decreases |nodes|
  {
    if nodes == [] then 0
    else
      var init, v := nodes[..|nodes| - 1], nodes[|nodes| - 1];
      MappedCount(mappers, defs, init) + (if defs[v].op in mappers then 1 else 0)
  }

  /** Lines 97-104: for each input in order, the layer `processed` holds for its name, if any. */
  function LayerInputs(list: seq<Id>, defs: seq<NodeDef>, processed: map<string, nat>): (r: seq<nat>)
    requires BoundedAt(list, |defs|)
    ensures forall j :: j in r <==> exists u :: u in list && defs[u].name in processed && processed[defs[u].name] == j
    decreases |list|
  {
    if list == [] then []
    else
      var init, u := list[..|list| - 1], list[|list| - 1];
      assert list == init + [u];
      var name := defs[u].name;
      LayerInputs(init, defs, processed) + (if name in processed then [processed[name]] else [])
  }

  /** The specification of `translateOperators`, node by node: a node whose
      op has a mapper adds its layer, is recorded under its name before its
      inputs are linked, and is linked from the layers of its inputs; a node
      without a mapper is skipped; a failing mapper stops the conversion. */
  function Translation(mappers: map<string, Mapper>, ins: seq<seq<Id>>, defs: seq<NodeDef>, nodes: seq<Id>): (r: Result<Translated>)
    requires InputLists(ins, |defs|) && BoundedAt(nodes, |defs|)
    ensures r.Success? ==> |r.value.layers| == |r.value.inputs| == MappedCount(mappers, defs, nodes)
    ensures r.Success? ==> forall name :: name in r.value.processed ==>
      r.value.processed[name] < |r.value.layers| && r.value.layers[r.value.processed[name]].id == name
    ensures r.Success? ==> forall k, j :: 0 <= k < |r.value.inputs| && j in r.value.inputs[k] ==> j <= k
    decreases |nodes|
  {
    if nodes == [] then Success(Translated([], map[], []))
    else
      var init, v := nodes[..|nodes| - 1], nodes[|nodes| - 1];
      match Translation(mappers, ins, defs, init)
      case Failure(e) => Failure(e)
      case Success(t) =>
        if defs[v].op !in mappers then Success(t)
        else
          match MapNode(mappers[defs[v].op], ins, defs, v)
          case Failure(e) => Failure(e)
          case Success(layer) =>
            var processed := t.processed[defs[v].name := |t.layers|];
            Success(Translated(t.layers + [layer], processed, t.inputs + [LayerInputs(ins[v], defs, processed)]))
  }

  /** One layer per mapped node, in graph order: the layer of the `i`-th node
      sits after the layers of the mapped nodes before it, and it is what the
      node's mapper builds. */
  lemma {:induction false} TranslationInOrder(mappers: map<string, Mapper>, ins: seq<seq<Id>>, defs: seq<NodeDef>, nodes: seq<Id>, i: nat)
    requires InputLists(ins, |defs|) && BoundedAt(nodes, |defs|)
    requires i < |nodes| && defs[nodes[i]].op in mappers && Translation(mappers, ins, defs, nodes).Success?
    ensures var k := MappedCount(mappers, defs, nodes[..i]);
      MapNode(mappers[defs[nodes[i]].op], ins, defs, nodes[i]).Success? &&
      k < |Translation(mappers, ins, defs, nodes).value.layers| &&
      Translation(mappers, ins, defs, nodes).value.layers[k] == MapNode(mappers[defs[nodes[i]].op], ins, defs, nodes[i]).value
    decreases |nodes|
  {
    var init := nodes[..|nodes| - 1];
    if i == |nodes| - 1 {
      assert nodes[..i] == init;
    } else {
      assert init[..i] == nodes[..i] && init[i] == nodes[i];
      TranslationInOrder(mappers, ins, defs, init, i);
    }
  }

  /** The node's op has a mapper and that mapper fails on it. */
  predicate MapperFails(mappers: map<string, Mapper>, ins: seq<seq<Id>>, defs: seq<NodeDef>, v: Id)
    requires InputLists(ins, |defs|) && v < |defs|
  {
    defs[v].op in mappers && MapNode(mappers[defs[v].op], ins, defs, v).Failure?
  }

  /** The last node of a list makes the conversion fail only through its own mapper. */
  lemma TranslationLast(mappers: map<string, Mapper>, ins: seq<seq<Id>>, defs: seq<NodeDef>, nodes: seq<Id>)
    requires InputLists(ins, |defs|) && BoundedAt(nodes, |defs|) && nodes != []
    ensures Translation(mappers, ins, defs, nodes).Failure? <==>
      Translation(mappers, ins, defs, nodes[..|nodes| - 1]).Failure? || MapperFails(mappers, ins, defs, nodes[|nodes| - 1])
  {
  }

  /** The conversion fails exactly when the mapper of some mapped node fails. */
  lemma {:induction false} TranslationFails(mappers: map<string, Mapper>, ins: seq<seq<Id>>, defs: seq<NodeDef>, nodes: seq<Id>)
    requires InputLists(ins, |defs|) && BoundedAt(nodes, |defs|)
    ensures Translation(mappers, ins, defs, nodes).Failure? <==>
      exists i :: 0 <= i < |nodes| && MapperFails(mappers, ins, defs, nodes[i])
    decreases |nodes|
  {
    if nodes != [] {
      var init, v := nodes[..|nodes| - 1], nodes[|nodes| - 1];
      TranslationLast(mappers, ins, defs, nodes);
      TranslationFails(mappers, ins, defs, init);
      assert forall i :: 0 <= i < |init| ==> init[i] == nodes[i];
      assert nodes[|nodes| - 1] == v;
    }
  }

  /** A failure is final: a longer node list fails the same way. */
  lemma {:induction false} FailureSticks(mappers: map<string, Mapper>, ins: seq<seq<Id>>, defs: seq<NodeDef>, nodes: seq<Id>, i: nat)
    requires InputLists(ins, |defs|) && BoundedAt(nodes, |defs|) && i <= |nodes|
    requires Translation(mappers, ins, defs, nodes[..i]).Failure?
    ensures Translation(mappers, ins, defs, nodes) == Translation(mappers, ins, defs, nodes[..i])
    decreases |nodes| - i
  {
    if i == |nodes| {
      assert nodes[..i] == nodes;
    } else {
      var prefix := nodes[..i + 1];
      assert prefix[..|prefix| - 1] == nodes[..i];
      FailureSticks(mappers, ins, defs, nodes, i + 1);
    }
  }

  /** Linking a fresh layer `k` from `sources` leaves every other layer's incoming set as it was. */
  lemma LinkedStep(in0: seq<seq<Id>>, in1: seq<seq<Id>>, inputs: seq<seq<nat>>, k: nat, sources: seq<nat>)
    requires |in0| == |in1| == k + 1 && |inputs| == k && in0[k] == []
    requires forall x :: 0 <= x < k ==> forall j :: j in in0[x] <==> j in inputs[x]
    requires GrownFrom(in0, in1) && AddsOnly(in0, in1, sources, [k])
    requires forall m :: 0 <= m < |sources| ==> sources[m] in in1[k]
    ensures forall x :: 0 <= x < k + 1 ==> forall j :: j in in1[x] <==> j in (inputs + [sources])[x]
  {
    forall x, j | 0 <= x < k + 1
      ensures j in in1[x] <==> j in (inputs + [sources])[x]
    {
      if x == k {
        if j in sources {
          var m :| 0 <= m < |sources| && sources[m] == j;
        }
      }
    }
  }

  /** Every node of a table has exactly the inputs its layer lists. */
  ghost predicate Linked(edgeIn: seq<seq<Id>>, inputs: seq<seq<nat>>) {
    |edgeIn| == |inputs| && forall k :: 0 <= k < |edgeIn| ==> forall j :: j in edgeIn[k] <==> j in inputs[k]
  }

  /** Adds the node of one more layer and its incoming edges. */
  method LinkLayer(net: NodeTable, inputs: seq<seq<nat>>, sources: seq<nat>) returns (k: Id)
    requires net.WellFormed() && Linked(net.edgeIn, inputs) && BoundedAt(sources, |inputs| + 1)
    modifies net
    ensures k == |inputs| && net.WellFormed() && Linked(net.edgeIn, inputs + [sources])
  {
    k := net.AddNode();
    ghost var in1 := net.edgeIn;
    AddIncomingEdges(net, k, sources);
    LinkedStep(in1, net.edgeIn, inputs, k, sources);
  }

  // ---------------------------------------------------------------------
  // The converter

  /** A valid graph's incoming lists and node list stay within its nodes. */
  lemma ValidInputs(g: TFGraph)
    requires g.Valid()
    ensures InputLists(g.table.edgeIn, |g.defs|) && BoundedAt(g.nodes, |g.defs|)
  {
    forall v | 0 <= v < |g.defs| ensures BoundedAt(g.table.edgeIn[v], |g.defs|) {
      forall k | 0 <= k < |g.table.edgeIn[v]| ensures g.table.edgeIn[v][k] < |g.defs| {
        assert g.table.edgeIn[v][k] in g.table.edgeIn[v];
      }
    }
    forall k | 0 <= k < |g.nodes| ensures g.nodes[k] < |g.defs| {
      assert g.nodes[k] in g.nodes;
    }
  }

  /** An optimizer of the converter's list. */
  datatype Optimizer =
    | StripTrainingOpsPass
    | IgnoredOpsPass
    | DeleteSubgraphPass(deleter: Deleter)
    | VariablePass
    | DensePass
    | ReshapePass
    | ConvPass
    | ConvDilationPass
    | InstanceNormPass

  /** Lines 32-37: the optimizers of `default()`, in order. */
  const DefaultOptimizers: seq<Optimizer> :=
    [StripTrainingOpsPass, DeleteSubgraphPass(DeleteDropout), VariablePass, DensePass, ReshapePass, ConvPass]

  /** The optimizers that rewrite definitions as well as edges. */
  predicate Rewrites(o: Optimizer) {
    o.DensePass? || o.ConvPass? || o.ConvDilationPass? || o.InstanceNormPass?
  }

  /** `optimizer.optimize(graph:)`: every optimizer keeps the graph's node
      count and its node list. `trapped` is the dilation optimizer's trap on
      a short list. `fuel` bounds the depth of the recursive strip. */
  method Optimize(g: TFGraph, o: Optimizer, fuel: nat) returns (trapped: bool)
    requires g.Valid()
    modifies g.table, g`defs
    ensures g.Valid() && g.table.Size() == old(g.table.Size())
    ensures trapped ==> o.ConvDilationPass?
  {
    if Rewrites(o) {
      trapped := Rewrite(g, o);
    } else {
      Prune(g, o, fuel);
      trapped := false;
    }
  }

  /** The optimizers that only change edges. */
  method Prune(g: TFGraph, o: Optimizer, fuel: nat)
    requires g.Valid() && !Rewrites(o)
    modifies g.table
    ensures g.Valid() && g.table.Size() == old(g.table.Size())
  {
    match o
    case StripTrainingOpsPass => StripTrainingOps(g);
    case IgnoredOpsPass => ghost var trace, loopFree := IgnoredOpsDeleter(g);
    case DeleteSubgraphPass(d) => DeleteSubgraph(g, d);
    case VariablePass => VariableProcessor(g, fuel);
    case ReshapePass => ghost var trace, loopFree := ReshapeOptimizer(g);
  }

  /** The optimizers that also rewrite definitions. */
  method Rewrite(g: TFGraph, o: Optimizer) returns (trapped: bool)
    requires g.Valid() && Rewrites(o)
    modifies g.table, g`defs
    ensures g.Valid() && g.table.Size() == old(g.table.Size())
    ensures trapped ==> o.ConvDilationPass?
  {
    trapped := false;
    match o
    case DensePass => ghost var trace := DenseSubstitution(g);
    case ConvPass => ghost var trace := ConvOptimizer(g);
    case ConvDilationPass =>
      ghost var trace: seq<GraphState>, loopFree: bool;
      trapped, trace, loopFree := ConvDilationOptimizer(g);
    case InstanceNormPass => NormPass(g);
  }

  /** The instance-norm rewrite, with the rewritten definitions stored back in the graph. */
  method NormPass(g: TFGraph)
    requires g.Valid()
    modifies g.table, g`defs
    ensures g.Valid() && g.table.Size() == old(g.table.Size())
  {
    var defs := NormDefs(g.table, g.nodes, g.defs);
    g.defs := defs;
  }

  /** The definitions after the instance-norm rewrite of table `t`. */
  method NormDefs(t: NodeTable, nodes: seq<Id>, defs0: seq<NodeDef>) returns (defs: seq<NodeDef>)
    requires t.Valid() && t.Size() == |defs0| && Bounded(nodes, |defs0|)
    modifies t
    ensures t.Valid() && t.Size() == old(t.Size()) && |defs| == |defs0|
  {
    var mappings, order, consistent;
    defs, mappings, order, consistent := InstanceNormOptimizer(t, nodes, defs0);
  }

  /** `TFConverter`: its optimizer list and its mapper dictionary. */
  class Converter {
    var optimizers: seq<Optimizer>
    var mappers: map<string, Mapper>

    /** `init(optimizers:)`: no mapper yet. */
    constructor(optimizers: seq<Optimizer>)
      ensures this.optimizers == optimizers && mappers == map[]
    {
      this.optimizers := optimizers;
      mappers := map[];
    }

    /** `setupMappers()`: installs the default mappers, replacing any mapper
        already registered for the same op. */
    method SetupMappers()
      modifies this`mappers
      ensures mappers == old(mappers) + DefaultMappers
      ensures forall op :: op in mappers <==> op in old(mappers) || op in DefaultMappers
    {
      mappers := mappers + DefaultMappers;
    }

    /** `default()`. */
    static method Default() returns (c: Converter)
      ensures fresh(c) && c.optimizers == DefaultOptimizers && c.mappers == DefaultMappers
    {
      c := new Converter(DefaultOptimizers);
      c.SetupMappers();
      assert map[] + DefaultMappers == DefaultMappers;
    }

    /** `runOptimizers(graph:)`: each optimizer in order, each followed by
        `removeLonely()`; with at least one optimizer no lonely node is left
        in the list, and the list only loses nodes. */
    method RunOptimizers(g: TFGraph, fuel: nat) returns (trapped: bool)
      requires g.Valid()
      modifies g.table, g`defs, g`nodes
      ensures g.Valid() && g.table.Size() == old(g.table.Size())
      ensures forall v :: v in g.nodes ==> v in old(g.nodes)
      ensures !trapped && optimizers != [] ==> forall v :: v in g.nodes ==> !g.table.IsLonely(v)
      ensures trapped ==> ConvDilationPass in optimizers
    {
      trapped := false;
      for i := 0 to |optimizers|
        invariant g.Valid() && g.table.Size() == old(g.table.Size())
        invariant forall v :: v in g.nodes ==> v in old(g.nodes)
        invariant i > 0 ==> forall v :: v in g.nodes ==> !g.table.IsLonely(v)
      {
        trapped := Optimize(g, optimizers[i], fuel);
        if trapped {
          return;
        }
        g.RemoveLonely();
      }
    }

    /** `translateOperators(graph:)`, over the graph's incoming lists,
        definitions and node list: returns the conversion and the network
        graph of the layers, layer `k` being node `k` of `net`, whose
        incoming edges are exactly the recorded inputs of layer `k`. */
    method TranslateOperators(ins: seq<seq<Id>>, defs: seq<NodeDef>, nodes: seq<Id>) returns (r: Result<Translated>, net: NodeTable)
      requires InputLists(ins, |defs|) && BoundedAt(nodes, |defs|)
      ensures r == Translation(mappers, ins, defs, nodes)
      ensures fresh(net) && net.WellFormed()
      ensures r.Success? ==> net.Size() == |r.value.layers| && Linked(net.edgeIn, r.value.inputs)
    {
      net := new NodeTable(0);
      var done := Translated([], map[], []);
      for i := 0 to |nodes|
        invariant Translation(mappers, ins, defs, nodes[..i]) == Success(done)
        invariant fresh(net) && net.WellFormed() && |done.layers| == |done.inputs| && Linked(net.edgeIn, done.inputs)
      {
        var step := TranslateStep(net, ins, defs, nodes, i, done);
        if step.Failure? {
          r := step;
          FailureSticks(mappers, ins, defs, nodes, i + 1);
          return;
        }
        done := step.value;
      }
      assert nodes[..|nodes|] == nodes;
      r := Success(done);
    }

    /** One turn of the translation loop, on `nodes[i]`, after the nodes
        before it were translated to `done`: a mapped node's layer is added
        to `net`, linked from the layers of its inputs. */
    method TranslateStep(net: NodeTable, ins: seq<seq<Id>>, defs: seq<NodeDef>, nodes: seq<Id>, i: nat, done: Translated)
      returns (r: Result<Translated>)
      requires InputLists(ins, |defs|) && BoundedAt(nodes, |defs|) && i < |nodes|
      requires Translation(mappers, ins, defs, nodes[..i]) == Success(done)
      requires net.WellFormed() && |done.layers| == |done.inputs| && Linked(net.edgeIn, done.inputs)
      modifies net
      ensures r == Translation(mappers, ins, defs, nodes[..i + 1])
      ensures net.WellFormed() && (r.Success? ==> |r.value.layers| == |r.value.inputs| && Linked(net.edgeIn, r.value.inputs))
    {
      var v := nodes[i];
      assert nodes[..i + 1][..i] == nodes[..i] && nodes[i] in nodes;
      var op := defs[v].op;
      if op !in mappers {
        return Success(done);
      }
      var layer := MapNode(mappers[op], ins, defs, v);
      if layer.Failure? {
        return Failure(layer.error);
      }
      var k := |done.layers|;
      var processed := done.processed[defs[v].name := k];
      var sources := LayerInputs(ins[v], defs, processed);
      assert BoundedAt(sources, k + 1) by {
        forall m | 0 <= m < |sources| ensures sources[m] < k + 1 {
          assert sources[m] in sources;
        }
      }
      k := LinkLayer(net, done.inputs, sources);
      r := Success(Translated(done.layers + [layer.value], processed, done.inputs + [sources]));
    }

    /** `convertGraph`, from an already loaded graph: the optimizers, then
        the translation of what is left. */
    method ConvertGraph(g: TFGraph, fuel: nat) returns (r: Result<Translated>, net: NodeTable)
      requires g.Valid()
      modifies g.table, g`defs, g`nodes
      ensures g.Valid() && InputLists(g.table.edgeIn, |g.defs|) && BoundedAt(g.nodes, |g.defs|)
      ensures r.Success? ==> r == Translation(mappers, g.table.edgeIn, g.defs, g.nodes)
      ensures r.Success? && optimizers != [] ==> forall v :: v in g.nodes ==> !g.table.IsLonely(v)
    {
      var trapped := RunOptimizers(g, fuel);
      ValidInputs(g);
      if trapped {
        r := Failure("Index out of range");
        net := new NodeTable(0);
        return;
      }
      r, net := TranslateOperators(g.table.edgeIn, g.defs, g.nodes);
    }
  }
}
