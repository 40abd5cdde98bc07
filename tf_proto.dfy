/** The parts of a TensorFlow `NodeDef` the converter reads, and the helpers
    of Sources/Adapters/Tensorflow/ProtoExtensions.swift and
    `ConvSize(shape:strideX:strideY:)` (Sources/Helpers/LayerSize.swift).

    Protocol-buffer fields read through the wrong case of a `oneof` give the
    field's default value (an empty string, list or tensor); the accessors
    below spell those defaults out. A byte string is decoded to text without
    failure: invalid UTF-8 is not part of this model. */
module TFProto {
  import opened Wrappers
  import opened Sizes
  import opened Bytes
  import TFNames

  /** A tensor: its shape, its raw bytes and its 32-bit integer values. */
  datatype TensorProto = TensorProto(tensorShape: seq<int>, tensorContent: seq<bv8>, intVal: seq<int>)

  /** The cases of `AttrValue` the converter reads. */
  datatype AttrValue =
    | StringAttr(s: string)
    | IntListAttr(i: seq<int>)
    | ShapeAttr(dims: seq<int>)
    | TensorAttr(tensor: TensorProto)
    | BoolAttr(b: bool)
    | FloatAttr(f: real)

  /** `.s`: the string, or the empty default. */
  function AttrString(v: AttrValue): string {
    if v.StringAttr? then v.s else ""
  }

  /** `.list.i`: the integer list, or the empty default. */
  function AttrInts(v: AttrValue): seq<int> {
    if v.IntListAttr? then v.i else []
  }

  /** `.shape`: the shape, or the empty default. */
  function AttrShape(v: AttrValue): seq<int> {
    if v.ShapeAttr? then v.dims else []
  }

  /** `.tensor`: the tensor, or the empty default. */
  function AttrTensor(v: AttrValue): TensorProto {
    if v.TensorAttr? then v.tensor else TensorProto([], [], [])
  }

  /** `.b`: the flag, or `false`. */
  function AttrBool(v: AttrValue): bool {
    v.BoolAttr? && v.b
  }

  /** `.f`: the number, or `0`. */
  function AttrFloat(v: AttrValue): real {
    if v.FloatAttr? then v.f else 0.0
  }

  /** A node of a TensorFlow graph definition. */
  datatype NodeDef = NodeDef(name: string, op: string, input: seq<string>, attr: map<string, AttrValue>)

  /** `Tensorflow_NodeDef ==`: definitions are compared by name only. */
  predicate SameDef(a: NodeDef, b: NodeDef) {
    a.name == b.name
  }

  /** Comparing definitions is an equivalence that ignores everything but the
      name: two nodes with one name are the same node to the converter. */
  lemma SameDefIsNameEquality(a: NodeDef, b: NodeDef, c: NodeDef)
    ensures SameDef(a, a)
    ensures SameDef(a, b) ==> SameDef(b, a)
    ensures SameDef(a, b) && SameDef(b, c) ==> SameDef(a, c)
    ensures SameDef(a, b) <==> SameDef(a.(op := b.op, input := b.input, attr := b.attr), b)
  {
  }

  /** `shape`: the `shape` attribute if there is one, otherwise the shape of
      the `value` tensor, otherwise none. */
  function ShapeOf(def: NodeDef): (r: Option<seq<int>>)
    ensures "shape" in def.attr ==> r == Some(AttrShape(def.attr["shape"]))
    ensures "shape" !in def.attr && "value" in def.attr ==> r == Some(AttrTensor(def.attr["value"]).tensorShape)
    ensures r.None? <==> "shape" !in def.attr && "value" !in def.attr
  {
    if "shape" in def.attr then Some(AttrShape(def.attr["shape"]))
    else if "value" in def.attr then Some(AttrTensor(def.attr["value"]).tensorShape)
    else None
  }

  /** The `data_format` attribute as text, if present. */
  function DataFormat(def: NodeDef): Option<string> {
    if "data_format" in def.attr then Some(AttrString(def.attr["data_format"])) else None
  }

  /** The list positions of the horizontal and vertical entries: 1 and 2 with
      no format, 2 and 1 for `NHWC`, 3 and 2 for any other format. */
  function XYIndices(format: Option<string>): (r: (int, int))
    ensures format.None? ==> r == (1, 2)
    ensures format == Some("NHWC") ==> r == (2, 1)
    ensures format.Some? && format.value != "NHWC" ==> r == (3, 2)
  {
    match format
    case None => (1, 2)
    case Some(f) => if f == "NHWC" then (2, 1) else (3, 2)
  }

  /** Reads the horizontal and vertical entries of an attribute list: none
      without the attribute, a trap when the list is too short. */
  function PickXY(def: NodeDef, key: string): (r: Result<Option<(int, int)>>)
    ensures key !in def.attr ==> r == Success(None)
    ensures key in def.attr ==>
      var list := AttrInts(def.attr[key]);
      var (xi, yi) := XYIndices(DataFormat(def));
      if xi < |list| && yi < |list| then r == Success(Some((list[xi], list[yi]))) else r.Failure?
  {
    if key !in def.attr then Success(None)
    else
      var list := AttrInts(def.attr[key]);
      var (xi, yi) := XYIndices(DataFormat(def));
      if xi < |list| && yi < |list| then Success(Some((list[xi], list[yi])))
      else Failure("Index out of range")
  }

  /** `strides`: `(x, y)`. */
  function Strides(def: NodeDef): (r: Result<Option<(int, int)>>)
    ensures "strides" !in def.attr ==> r == Success(None)
  {
    PickXY(def, "strides")
  }

  /** `ksize`: `(width, height)`. */
  function Ksize(def: NodeDef): (r: Result<Option<(int, int)>>)
    ensures "ksize" !in def.attr ==> r == Success(None)
  {
    PickXY(def, "ksize")
  }

  /** Where each stride is read from: entries 1 and 2 without a format,
      `x = s[2]`, `y = s[1]` for `NHWC` and `x = s[3]`, `y = s[2]` otherwise. */
  lemma StridesLayout(def: NodeDef, s: seq<int>)
    requires "strides" in def.attr && def.attr["strides"] == IntListAttr(s) && |s| >= 4
    ensures "data_format" !in def.attr ==> Strides(def) == Success(Some((s[1], s[2])))
    ensures DataFormat(def) == Some("NHWC") ==> Strides(def) == Success(Some((s[2], s[1])))
    ensures "data_format" in def.attr && DataFormat(def) != Some("NHWC") ==> Strides(def) == Success(Some((s[3], s[2])))
  {
  }

  /** A short list traps: `NCHW` needs four entries. */
  lemma StridesTrap(def: NodeDef)
    requires "strides" in def.attr && def.attr["strides"] == IntListAttr([1, 2, 2]) && DataFormat(def) == Some("NCHW")
    ensures Strides(def).Failure?
  {
  }

  /** `ksize` reads its list by the same rules as `strides`. */
  lemma KsizeLikeStrides(def: NodeDef)
    requires "ksize" in def.attr && "strides" in def.attr && def.attr["ksize"] == def.attr["strides"]
    ensures Ksize(def) == Strides(def)
  {
  }

  /** `ActivationNeuronType`. */
  datatype ActivationNeuron = NoNeuron | ReluNeuron | TanhNeuron | SigmoidNeuron

  /** `activationNeuron()`: the `neuron` attribute names Relu, Tanh or
      Sigmoid; anything else, or no attribute, is no neuron. */
  function ActivationNeuronOf(def: NodeDef): (r: ActivationNeuron)
    ensures r == ReluNeuron <==> "neuron" in def.attr && AttrString(def.attr["neuron"]) == TFNames.Relu
    ensures r == TanhNeuron <==> "neuron" in def.attr && AttrString(def.attr["neuron"]) == TFNames.Tanh
    ensures r == SigmoidNeuron <==> "neuron" in def.attr && AttrString(def.attr["neuron"]) == TFNames.Sigmoid
  {
    if "neuron" !in def.attr then NoNeuron
    else
      var op := AttrString(def.attr["neuron"]);
      if op == TFNames.Relu then ReluNeuron
      else if op == TFNames.Tanh then TanhNeuron
      else if op == TFNames.Sigmoid then SigmoidNeuron
      else NoNeuron
  }

  /** Setting the `neuron` attribute to a neuron op, as neuron folding does,
      is read back as that neuron. */
  lemma NeuronRoundTrip(def: NodeDef, op: string)
    requires TFNames.IsNeuron(op)
    ensures var r := ActivationNeuronOf(def.(attr := def.attr["neuron" := StringAttr(op)]));
      r != NoNeuron && (r == ReluNeuron <==> op == TFNames.Relu)
  {
  }

  /** `valueData()`: the tensor bytes of a `Const` node with a `value`. */
  function ValueData(def: NodeDef): (r: Option<seq<bv8>>)
    ensures r.Some? <==> def.op == TFNames.Const && "value" in def.attr
    ensures r.Some? ==> r.value == AttrTensor(def.attr["value"]).tensorContent
  {
    if def.op == TFNames.Const && "value" in def.attr then Some(AttrTensor(def.attr["value"]).tensorContent)
    else None
  }

  /** A little-endian 32-bit two's-complement integer from four bytes. */
  function Int32At(b: seq<bv8>): (x: int)
    requires |b| == 4
    ensures -0x8000_0000 <= x < 0x8000_0000
  {
    var u := b[0] as int + 0x100 * (b[1] as int) + 0x1_0000 * (b[2] as int) + 0x100_0000 * (b[3] as int);
    if u < 0x8000_0000 then u else u - 0x1_0000_0000
  }

  /** The four bytes of a 32-bit integer, least significant first. */
  function Int32Bytes(x: int): (b: seq<bv8>)
    requires -0x8000_0000 <= x < 0x8000_0000
    ensures |b| == 4
  {
    var u := if x < 0 then x + 0x1_0000_0000 else x;
    var q1 := u / 0x100;
    var q2 := q1 / 0x100;
    [(u % 0x100) as bv8, (q1 % 0x100) as bv8, (q2 % 0x100) as bv8, (q2 / 0x100) as bv8]
  }

  /** The base-256 digits of an unsigned 32-bit value put it back together. */
  lemma Base256(u: int)
    requires 0 <= u < 0x1_0000_0000
    ensures var q1 := u / 0x100; var q2 := q1 / 0x100;
      q2 / 0x100 < 0x100 &&
      u == u % 0x100 + 0x100 * (q1 % 0x100) + 0x1_0000 * (q2 % 0x100) + 0x100_0000 * (q2 / 0x100)
  {
    var q1 := u / 0x100;
    var q2 := q1 / 0x100;
    assert u == u % 0x100 + 0x100 * q1;
    assert q1 == q1 % 0x100 + 0x100 * q2;
    assert q2 == q2 % 0x100 + 0x100 * (q2 / 0x100);
    assert q1 < 0x100_0000;
    assert q2 < 0x1_0000;
  }

  /** Reading back the bytes of an integer gives the integer. */
  lemma Int32RoundTrip(x: int)
    requires -0x8000_0000 <= x < 0x8000_0000
    ensures Int32At(Int32Bytes(x)) == x
  {
    var u := if x < 0 then x + 0x1_0000_0000 else x;
    var q1 := u / 0x100;
    var q2 := q1 / 0x100;
    var a0, a1, a2, a3 := u % 0x100, q1 % 0x100, q2 % 0x100, q2 / 0x100;
    Base256(u);
    ByteRoundTrip(a0);
    ByteRoundTrip(a1);
    ByteRoundTrip(a2);
    ByteRoundTrip(a3);
    var b := Int32Bytes(x);
    assert b == [a0 as bv8, a1 as bv8, a2 as bv8, a3 as bv8];
    assert b[0] as int + 0x100 * (b[1] as int) + 0x1_0000 * (b[2] as int) + 0x100_0000 * (b[3] as int) == u;
  }

  /** `toArray()` on tensor bytes read as `Int32`: `count / 4` values, each
      from the next four bytes (little-endian, as on the devices the
      framework runs on); a trailing partial value is dropped. */
  function Int32s(bytes: seq<bv8>): (r: seq<int>)
    ensures |r| == |bytes| / 4
    decreases |bytes|
  {
    if |bytes| < 4 then [] else [Int32At(bytes[..4])] + Int32s(bytes[4..])
  }

  /** Value `k` comes from bytes `4k` to `4k + 3`. */
  lemma {:induction false} Int32sAt(bytes: seq<bv8>, k: nat)
    requires k < |bytes| / 4
    ensures Int32s(bytes)[k] == Int32At(bytes[4 * k..4 * k + 4])
    decreases k
  {
    if k > 0 {
      Int32sAt(bytes[4..], k - 1);
      assert bytes[4..][4 * (k - 1)..4 * (k - 1) + 4] == bytes[4 * k..4 * k + 4];
    }
  }

  /** The bytes of a list of 32-bit integers, one after the other. */
  function Int32sBytes(xs: seq<int>): (b: seq<bv8>)
    requires forall k :: 0 <= k < |xs| ==> -0x8000_0000 <= xs[k] < 0x8000_0000
    ensures |b| == 4 * |xs|
  {
    if xs == [] then [] else Int32Bytes(xs[0]) + Int32sBytes(xs[1..])
  }

  /** Decoding the bytes of a list of integers gives the list back. */
  lemma {:induction false} Int32sRoundTrip(xs: seq<int>)
    requires forall k :: 0 <= k < |xs| ==> -0x8000_0000 <= xs[k] < 0x8000_0000
    ensures Int32s(Int32sBytes(xs)) == xs
  {
    if xs != [] {
      var b := Int32sBytes(xs);
      Int32sRoundTrip(xs[1..]);
      Int32RoundTrip(xs[0]);
      assert b[..4] == Int32Bytes(xs[0]);
      assert b[4..] == Int32sBytes(xs[1..]);
    }
  }

  /** `isBias`: a one-dimensional shape. */
  predicate IsBias(dims: seq<int>) {
    |dims| == 1
  }

  /** The named dimensions of a convolution weight shape, `[kH, kW, in, out]`
      (reading past the end traps). */
  function KernelHeight(dims: seq<int>): int requires |dims| >= 1 { dims[0] }
  function KernelWidth(dims: seq<int>): int requires |dims| >= 2 { dims[1] }
  function InputChannels(dims: seq<int>): int requires |dims| >= 3 { dims[2] }
  function OutputChannels(dims: seq<int>): int requires |dims| >= 4 { dims[3] }

  /** `toShape`. */
  function ToShape(dims: seq<int>): (s: Shape)
    requires |dims| >= 4
    ensures s == Shape(dims[1], dims[0], dims[2], dims[3])
  {
    Shape(KernelWidth(dims), KernelHeight(dims), InputChannels(dims), OutputChannels(dims))
  }

  /** The tensor-shape `totalCount`. */
  function TensorTotalCount(dims: seq<int>): int
    requires |dims| >= 4
  {
    OutputChannels(dims) * InputChannels(dims) * KernelWidth(dims) * KernelHeight(dims)
  }

  /** Both `totalCount`s agree: counting the tensor shape or its `Shape`
      gives the product of the four dimensions. */
  lemma TensorTotalCountIsShapeCount(dims: seq<int>)
    requires |dims| >= 4
    ensures TensorTotalCount(dims) == TotalCount(ToShape(dims))
    ensures TensorTotalCount(dims) == dims[0] * dims[1] * dims[2] * dims[3]
  {
    TotalCountIsProduct(ToShape(dims));
    var a, b, c, d := dims[0], dims[1], dims[2], dims[3];
    assert d * c * b * a == b * a * c * d by {
      assert d * c * b * a == (d * c) * (b * a);
      assert b * a * c * d == (b * a) * (c * d);
    }
    assert d * c * b * a == a * b * c * d by {
      assert d * c * b * a == (d * c) * (b * a);
      assert a * b * c * d == (a * b) * (c * d);
    }
  }

  /** `ConvSize(shape:strideX:strideY:)`: output channels from dimension 3,
      kernel width from 1 and height from 0. */
  function ConvSizeFromShape(dims: seq<int>, strideX: int, strideY: int): (c: ConvSize)
    requires |dims| >= 4
    ensures c.outputChannels == dims[3] && c.kernelWidth == dims[1] && c.kernelHeight == dims[0]
    ensures c.strideX == strideX && c.strideY == strideY
  {
    ConvSize(OutputChannels(dims), KernelWidth(dims), KernelHeight(dims), strideX, strideY)
  }
}
