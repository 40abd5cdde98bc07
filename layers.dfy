/** The size, offset and parameter arithmetic of the layers in Sources/Layers.

    Every layer computes its output size from the size of the layer that feeds
    it; the convolution and pooling layers also place the kernel's first window
    (the MPS kernel offset), and the layers with weights ask the parameter
    loader for a number of floats. Kernel encoding itself is GPU work and is not
    modelled. */
module Layers {
  import opened Wrappers
  import opened Sizes
  import SwiftInt

  /** An `MPSOffset` or `MTLOrigin`, in the x/y plane. */
  datatype Offset = Offset(x: int, y: int)

  /** The `validate` of a single-input layer (Convolution, ConvTranspose,
      Pooling, BatchNorm, Crop; FullyConnected asserts it in `initialize`). */
  predicate SingleInput(incoming: nat) { incoming == 1 }

  // ---------------------------------------------------------------------------
  // Output extent along one spatial axis (Convolution and Pooling)

  /** `prev / stride` with SAME padding, `(prev - kernel) / stride + 1` with
      VALID padding, in Swift's truncating division. */
  function Extent(prev: int, kernel: int, stride: int, padding: Padding): int
    requires stride != 0
  {
    match padding
    case Same => SwiftInt.Div(prev, stride)
    case Valid => SwiftInt.Div(prev - kernel, stride) + 1
  }

  /** With SAME padding there is one output per whole stride of the input: `n`
      strides fit in the input and `n + 1` do not. The quotient is rounded down,
      where TensorFlow's SAME rule rounds up. */
  lemma SameExtentStrides(prev: int, kernel: int, stride: int)
    requires prev >= 0 && stride > 0
    ensures var n := Extent(prev, kernel, stride, Same);
      n >= 0 && n * stride <= prev < (n + 1) * stride
  {
    var n := prev / stride;
    assert prev == stride * n + prev % stride;
    assert (n + 1) * stride == n * stride + stride;
  }

  /** With VALID padding, when the kernel fits in the input, there is one output
      per window that fits: the last window ends inside the input and one more
      window would not. */
  lemma ValidExtentWindows(prev: int, kernel: int, stride: int)
    requires stride > 0 && 0 <= kernel <= prev
    ensures var n := Extent(prev, kernel, stride, Valid);
      n >= 1 && (n - 1) * stride + kernel <= prev < n * stride + kernel
  {
    var q := (prev - kernel) / stride;
    assert prev - kernel == stride * q + (prev - kernel) % stride;
    assert (q + 1) * stride == q * stride + stride;
  }

  /** A kernel longer than the input by less than the stride still gives one
      VALID output, because the negative difference truncates toward zero. */
  lemma ValidExtentOversizedKernel(prev: int, kernel: int, stride: int)
    requires stride > 0 && kernel - stride < prev < kernel
    ensures Extent(prev, kernel, stride, Valid) == 1
  {
    assert 0 < kernel - prev < stride;
    assert (kernel - prev) / stride == 0;
  }

  // ---------------------------------------------------------------------------
  // Convolution and DepthwiseConvolution

  /** `Convolution.initialize`: the output size. */
  function ConvOutputSize(prev: LayerSize, c: ConvSize, padding: Padding): LayerSize
    requires c.strideX != 0 && c.strideY != 0
  {
    LayerSize(Extent(prev.h, c.kernelHeight, c.strideY, padding),
              Extent(prev.w, c.kernelWidth, c.strideX, padding),
              c.outputChannels)
  }

  /** How far the windows of an `n`-long output overrun an input of length
      `prev`: the padding SAME needs along one axis. */
  function SamePadding(prev: int, n: int, kernel: int, stride: int): int {
    (n - 1) * stride + kernel - prev
  }

  /** `Convolution.initialize`: the kernel offset. The offset is the centre of
      the first window, which covers `kernel / 2` positions before it. */
  function ConvOffset(prev: LayerSize, out: LayerSize, c: ConvSize, padding: Padding): Offset {
    match padding
    case Same =>
      var padTop := SwiftInt.Div(SamePadding(prev.h, out.h, c.kernelHeight, c.strideY), 2);
      var padLeft := SwiftInt.Div(SamePadding(prev.w, out.w, c.kernelWidth, c.strideX), 2);
      Offset(SwiftInt.Div(c.kernelWidth, 2) - padLeft, SwiftInt.Div(c.kernelHeight, 2) - padTop)
    case Valid =>
      Offset(SwiftInt.Div(c.kernelWidth, 2), SwiftInt.Div(c.kernelHeight, 2))
  }

  /** Splitting a non-negative padding in two halves, the first no larger than
      the second and at most one smaller. */
  lemma HalfSplit(pad: int)
    requires pad >= 0
    ensures SwiftInt.Div(pad, 2) <= pad - SwiftInt.Div(pad, 2) <= SwiftInt.Div(pad, 2) + 1
  {
  }

  /** With SAME padding the windows span the input plus the padding, and the
      offset puts the smaller half of the padding before the input and the larger
      half after it, as TensorFlow does. */
  lemma ConvSameWindows(prev: LayerSize, c: ConvSize)
    requires c.strideX > 0 && c.strideY > 0
    ensures var out := ConvOutputSize(prev, c, Same);
            var o := ConvOffset(prev, out, c, Same);
            var top := SwiftInt.Div(c.kernelHeight, 2) - o.y;
            var bottom := SamePadding(prev.h, out.h, c.kernelHeight, c.strideY) - top;
            var left := SwiftInt.Div(c.kernelWidth, 2) - o.x;
            var right := SamePadding(prev.w, out.w, c.kernelWidth, c.strideX) - left;
            top + prev.h + bottom == (out.h - 1) * c.strideY + c.kernelHeight &&
            left + prev.w + right == (out.w - 1) * c.strideX + c.kernelWidth &&
            (bottom + top >= 0 ==> top <= bottom <= top + 1) &&
            (left + right >= 0 ==> left <= right <= left + 1)
  {
    var out := ConvOutputSize(prev, c, Same);
    var padH := SamePadding(prev.h, out.h, c.kernelHeight, c.strideY);
    var padW := SamePadding(prev.w, out.w, c.kernelWidth, c.strideX);
    if padH >= 0 { HalfSplit(padH); }
    if padW >= 0 { HalfSplit(padW); }
  }

  /** With VALID padding the first window starts at the input's first element,
      and when the kernel fits the output has exactly the windows that fit. */
  lemma ConvValidWindows(prev: LayerSize, c: ConvSize)
    requires c.strideX > 0 && c.strideY > 0
    requires 0 <= c.kernelHeight <= prev.h && 0 <= c.kernelWidth <= prev.w
    ensures var out := ConvOutputSize(prev, c, Valid);
            var o := ConvOffset(prev, out, c, Valid);
            o.x - SwiftInt.Div(c.kernelWidth, 2) == 0 && o.y - SwiftInt.Div(c.kernelHeight, 2) == 0 &&
            out.h >= 1 && (out.h - 1) * c.strideY + c.kernelHeight <= prev.h < out.h * c.strideY + c.kernelHeight &&
            out.w >= 1 && (out.w - 1) * c.strideX + c.kernelWidth <= prev.w < out.w * c.strideX + c.kernelWidth
  {
    ValidExtentWindows(prev.h, c.kernelHeight, c.strideY);
    ValidExtentWindows(prev.w, c.kernelWidth, c.strideX);
  }

  /** `Convolution.getWeightsSize`. */
  function ConvWeightsCount(prev: LayerSize, c: ConvSize): int {
    prev.f * c.kernelHeight * c.kernelWidth * c.outputChannels
  }

  /** `DepthwiseConvolution.getWeightsSize`: one kernel per input channel. */
  function DepthwiseWeightsCount(prev: LayerSize, c: ConvSize): int {
    prev.f * c.kernelHeight * c.kernelWidth
  }

  /** The weights a convolution loads are the elements of its kernel tensor
      (width, height, input channels, output channels); a depthwise convolution
      loads one kernel per input channel, where a full convolution loads one per
      pair of input and output channels. */
  lemma WeightsAreKernelTensor(prev: LayerSize, c: ConvSize)
    ensures ConvWeightsCount(prev, c) == TotalCount(Shape(c.kernelWidth, c.kernelHeight, prev.f, c.outputChannels))
    ensures DepthwiseWeightsCount(prev, c) == TotalCount(Shape(c.kernelWidth, c.kernelHeight, prev.f, 1))
    ensures DepthwiseWeightsCount(prev, c) * c.outputChannels == ConvWeightsCount(prev, c)
  {
    TotalCountIsProduct(Shape(c.kernelWidth, c.kernelHeight, prev.f, c.outputChannels));
    TotalCountIsProduct(Shape(c.kernelWidth, c.kernelHeight, prev.f, 1));
    MulRotate(prev.f, c.kernelHeight, c.kernelWidth, c.outputChannels);
    MulRotate(prev.f, c.kernelHeight, c.kernelWidth, 1);
  }

  lemma MulRotate(a: int, b: int, c: int, d: int)
    ensures a * b * c * d == c * b * a * d
  {
    assert a * b * c == c * b * a;
  }

  /** An `MPSCNNConvolutionDescriptor` (the dilation rates are not part of this
      model). */
  datatype ConvDescriptor = ConvDescriptor(kernelWidth: int, kernelHeight: int, inputChannels: int,
                                           outputChannels: int, strideX: int, strideY: int)

  /** The descriptor built by Convolution, DepthwiseConvolution and
      ConvTranspose: it describes exactly the weights the layer loads. */
  function DescriptorFor(prev: LayerSize, c: ConvSize): (d: ConvDescriptor)
    ensures d.inputChannels * d.kernelHeight * d.kernelWidth * d.outputChannels == ConvWeightsCount(prev, c)
    ensures d.inputChannels == prev.f && d.outputChannels == c.outputChannels
    ensures d.strideX == c.strideX && d.strideY == c.strideY
  {
    ConvDescriptor(c.kernelWidth, c.kernelHeight, prev.f, c.outputChannels, c.strideX, c.strideY)
  }

  /** A `loadWeights(for:modifier:size:)` call. */
  datatype LoadRequest = LoadRequest(id: string, modifier: string, size: int)

  /** `Convolution.weightModifier` and `Convolution.biasModifier`, also used by
      FullyConnected. ConvTranspose declares its own modifiers, both empty. */
  const WeightModifier: string := ""
  const BiasModifier: string := "bias"

  /** `updateWeights` without an iOS 11 data source: the weights are loaded
      unless they were given, then the bias when the layer uses one and it was
      not given. */
  function ParameterRequests(id: string, weightsGiven: bool, useBias: bool, biasGiven: bool,
                             weightsCount: int, biasCount: int): (r: seq<LoadRequest>)
    ensures LoadRequest(id, WeightModifier, weightsCount) in r <==> !weightsGiven
    ensures LoadRequest(id, BiasModifier, biasCount) in r <==> useBias && !biasGiven
    ensures forall q :: q in r ==> q.id == id && (q == LoadRequest(id, WeightModifier, weightsCount) || q == LoadRequest(id, BiasModifier, biasCount))
    ensures |r| == 2 ==> r[0].modifier == WeightModifier
  {
    (if weightsGiven then [] else [LoadRequest(id, WeightModifier, weightsCount)]) +
    (if useBias && !biasGiven then [LoadRequest(id, BiasModifier, biasCount)] else [])
  }

  // ---------------------------------------------------------------------------
  // ConvTranspose

  /** `ConvTranspose.validate`: without the native MPS transpose kernel the
      custom shaders need equal strides, a square kernel and a stride one less
      than the kernel side. */
  function ConvTransposeValid(incoming: nat, c: ConvSize, nativeTranspose: bool): (ok: bool)
    ensures ok ==> SingleInput(incoming)
    ensures nativeTranspose ==> (ok <==> SingleInput(incoming))
    ensures !nativeTranspose ==>
      (ok <==> SingleInput(incoming) && c.strideX == c.strideY && c.kernelWidth == c.kernelHeight && c.strideX == c.kernelWidth - 1)
  {
    SingleInput(incoming) &&
    (nativeTranspose || (c.strideX == c.strideY && c.kernelWidth == c.kernelHeight && c.strideX == c.kernelWidth - 1))
  }

  /** `ConvTranspose.initialize`: the output size, the input scaled by the strides. */
  function ConvTransposeOutputSize(prev: LayerSize, c: ConvSize): LayerSize {
    LayerSize(prev.h * c.strideY, prev.w * c.strideX, c.outputChannels)
  }

  /** A transposed convolution undoes the spatial reduction of a SAME
      convolution with the same strides: convolving its output gives back the
      input extent. */
  lemma ConvTransposeInvertsSame(prev: LayerSize, c: ConvSize, d: ConvSize)
    requires prev.h >= 0 && prev.w >= 0 && c.strideX > 0 && c.strideY > 0
    requires d.strideX == c.strideX && d.strideY == c.strideY
    ensures var back := ConvOutputSize(ConvTransposeOutputSize(prev, c), d, Same);
      back.h == prev.h && back.w == prev.w && back.f == d.outputChannels
  {
    MulDiv(prev.h, c.strideY);
    MulDiv(prev.w, c.strideX);
  }

  lemma MulDiv(a: int, b: int)
    requires a >= 0 && b > 0
    ensures a * b >= 0 && (a * b) / b == a
  {
    var p := a * b;
    var q := p / b;
    assert p == b * q + p % b;
    assert b * (q - a) == -(p % b);
    MulBounds(b, q - a);
  }

  lemma MulBounds(b: int, d: int)
    requires b > 0
    ensures d >= 1 ==> b * d >= b
    ensures d <= -1 ==> b * d <= -b
  {
  }

  /** `ConvTranspose.getWeightsSize`: the same count as a convolution with the
      same kernel and channels. */
  function ConvTransposeWeightsCount(prev: LayerSize, c: ConvSize): (n: int)
    ensures n == ConvWeightsCount(prev, c)
  {
    MulSwapMiddle(prev.f, c.kernelWidth, c.kernelHeight, c.outputChannels);
    prev.f * c.kernelWidth * c.kernelHeight * c.outputChannels
  }

  lemma MulSwapMiddle(a: int, b: int, c: int, d: int)
    ensures a * b * c * d == a * c * b * d
  {
    assert a * b * c == a * c * b;
  }

  /** The two intermediate images of the custom transposed convolution. */
  function ConvTransposeSteps(prev: LayerSize, out: LayerSize): (LayerSize, LayerSize) {
    (LayerSize(out.h + prev.h, out.w + prev.w, out.f), LayerSize(out.h + prev.h, out.w, out.f))
  }

  /** Shifting left removes `prev.w` columns from the first image and shifting
      up removes `prev.h` rows from the second, arriving at the output size. */
  lemma ConvTransposeStepsShrinkToOutput(prev: LayerSize, out: LayerSize)
    ensures var (s1, s2) := ConvTransposeSteps(prev, out);
      s2 == LayerSize(s1.h, s1.w - prev.w, s1.f) &&
      out == LayerSize(s2.h - prev.h, s2.w, s2.f)
  {
  }

  // ---------------------------------------------------------------------------
  // Pooling

  /** `Pooling.initialize`: the output size; the channels are unchanged. */
  function PoolOutputSize(prev: LayerSize, kernelWidth: int, kernelHeight: int,
                          strideX: int, strideY: int, padding: Padding): LayerSize
    requires strideX != 0 && strideY != 0
  {
    LayerSize(Extent(prev.h, kernelHeight, strideY, padding),
              Extent(prev.w, kernelWidth, strideX, padding),
              prev.f)
  }

  /** Pooling reduces the spatial extent exactly as a convolution with the same
      kernel, stride and padding, and keeps the channels. */
  lemma PoolingMatchesConvolution(prev: LayerSize, c: ConvSize, padding: Padding)
    requires c.strideX != 0 && c.strideY != 0
    ensures var p := PoolOutputSize(prev, c.kernelWidth, c.kernelHeight, c.strideX, c.strideY, padding);
            var q := ConvOutputSize(prev, c, padding);
      p.h == q.h && p.w == q.w && p.f == prev.f
  {
  }

  /** The amount `Pooling.initialize` adds to the kernel's offset along one axis. */
  function PoolOffsetShift(prev: int, kernel: int, stride: int, padding: Padding): int
    requires stride != 0
  {
    match padding
    case Same => SwiftInt.Div(SwiftInt.Rem(prev - 1, stride), 2) + SwiftInt.Rem(kernel + 1, 2)
    case Valid => SwiftInt.Div(kernel, 2)
  }

  /** With SAME padding the shift centres the input's leftover positions
      (`(prev - 1) % stride`) and moves an even kernel one further than an odd
      one; the shift is never negative and at most half a stride plus one. */
  lemma PoolSameShift(prev: int, kernel: int, stride: int)
    requires prev >= 0 && kernel >= 0 && stride > 0
    ensures var s := PoolOffsetShift(prev, kernel, stride, Same);
      (prev >= 1 ==> s == ((prev - 1) % stride) / 2 + (if kernel % 2 == 0 then 1 else 0)) &&
      0 <= s <= (stride - 1) / 2 + 1
  {
    var r := SwiftInt.Rem(prev - 1, stride);
    ParityShift(kernel);
    if prev >= 1 {
      NaturalRem(prev - 1, stride);
      NaturalRem(r, 2);
    } else {
      OneBelowZero(stride);
    }
  }

  /** On a non-negative dividend and a positive divisor Swift's `%` is Dafny's. */
  lemma NaturalRem(a: int, b: int)
    requires a >= 0 && b > 0
    ensures SwiftInt.Rem(a, b) == a % b && SwiftInt.Div(a, b) == a / b
  {
  }

  /** `(k + 1) % 2` is one exactly when `k` is even. */
  lemma ParityShift(k: int)
    requires k >= 0
    ensures SwiftInt.Rem(k + 1, 2) == (if k % 2 == 0 then 1 else 0)
  {
    NaturalRem(k + 1, 2);
  }

  /** `(-1) % s` in Swift is `0` or `-1`, and half of it truncates to `0`. */
  lemma OneBelowZero(stride: int)
    requires stride > 0
    ensures -1 <= SwiftInt.Rem(-1, stride) <= 0 && SwiftInt.Div(SwiftInt.Rem(-1, stride), 2) == 0
  {
  }

  /** An MPS pooling kernel as `Pooling` configures it. */
  class Pooling {
    const padding: Padding
    const kernelWidth: int
    const kernelHeight: int
    const strideX: int
    const strideY: int
    var offset: Offset
    var outputSize: Option<LayerSize>

    /** The defaults: a 2×2 kernel, stride 2 and SAME padding. */
    constructor(padding: Padding := Same, kernelWidth: int := 2, kernelHeight: int := 2,
                strideX: int := 2, strideY: int := 2)
      ensures this.padding == padding && this.kernelWidth == kernelWidth && this.kernelHeight == kernelHeight
      ensures this.strideX == strideX && this.strideY == strideY
      ensures outputSize == None
    {
      this.padding := padding;
      this.kernelWidth := kernelWidth;
      this.kernelHeight := kernelHeight;
      this.strideX := strideX;
      this.strideY := strideY;
      offset := Offset(0, 0);
      outputSize := None;
    }

    /** `initialize`: a new kernel starts at the offset MPS gives it
        (`kernelOffset`), which is shifted for the padding; the output size
        follows the padding. */
    method Initialize(prev: LayerSize, kernelOffset: Offset)
      requires strideX != 0 && strideY != 0
      modifies this
      ensures offset == Offset(kernelOffset.x + PoolOffsetShift(prev.w, kernelWidth, strideX, padding),
                               kernelOffset.y + PoolOffsetShift(prev.h, kernelHeight, strideY, padding))
      ensures outputSize == Some(PoolOutputSize(prev, kernelWidth, kernelHeight, strideX, strideY, padding))
    {
      offset := kernelOffset;
      offset := offset.(x := offset.x + PoolOffsetShift(prev.w, kernelWidth, strideX, padding));
      offset := offset.(y := offset.y + PoolOffsetShift(prev.h, kernelHeight, strideY, padding));
      outputSize := Some(PoolOutputSize(prev, kernelWidth, kernelHeight, strideX, strideY, padding));
    }
  }

  // ---------------------------------------------------------------------------
  // Concat

  /** `incoming.reduce(0) { $0 + $1.outputSize[axis] }`: a left fold. */
  function SumAlong(inputs: seq<LayerSize>, axis: Axis): int
    decreases |inputs|
  {
    if inputs == [] then 0 else SumAlong(inputs[..|inputs| - 1], axis) + inputs[|inputs| - 1].Get(axis)
  }

  /** `LayerSizeAxis.all.filter { $0 != axis }`. */
  function OtherAxes(axis: Axis): (r: seq<Axis>)
    ensures forall a :: a in r <==> a != axis
  {
    AllAxesListsEachOnce();
    Without(AllAxes, axis)
  }

  function Without(axes: seq<Axis>, axis: Axis): (r: seq<Axis>)
    ensures forall a :: a in r <==> a in axes && a != axis
  {
    if axes == [] then []
    else if axes[0] == axis then Without(axes[1..], axis)
    else [axes[0]] + Without(axes[1..], axis)
  }

  /** The kernel name: `concat_y`, `concat_x` or `concat_z` for the h, w or f
      axis, with `_3` when the first input has at most 4 channels. */
  function ConcatShader(axis: Axis, firstChannels: int): (name: string)
    ensures |name| == 8 || |name| == 10
    ensures |name| == 10 <==> firstChannels <= 4
    ensures name[..7] == "concat_"
    ensures name[7] == (match axis case H => 'y' case W => 'x' case F => 'z')
  {
    var base := match axis case H => "concat_y" case W => "concat_x" case F => "concat_z";
    if firstChannels <= 4 then base + "_3" else base
  }

  /** Different axes use different kernels, and so do inputs on either side of
      4 channels. */
  lemma ConcatShaderInjective(a: Axis, fa: int, b: Axis, fb: int)
    requires ConcatShader(a, fa) == ConcatShader(b, fb)
    ensures a == b && (fa <= 4 <==> fb <= 4)
  {
    assert ConcatShader(a, fa)[7] == ConcatShader(b, fb)[7];
  }

  /** `Concat.initialize`: fills the dimension dictionary (the sum of the inputs
      along the concatenation axis, the first input's extent along the others)
      and names the kernel. */
  method ConcatInitialize(axis: Axis, inputs: seq<LayerSize>) returns (out: LayerSize, shader: string)
    requires |inputs| >= 1
    ensures out.Get(axis) == SumAlong(inputs, axis)
    ensures forall a :: a != axis ==> out.Get(a) == inputs[0].Get(a)
    ensures shader == ConcatShader(axis, inputs[0].f)
  {
    var others := OtherAxes(axis);
    var dims: map<Axis, int> := map[axis := SumAlong(inputs, axis)];
    var i := 0;
    while i < |others|
      invariant 0 <= i <= |others|
      invariant axis in dims && dims[axis] == SumAlong(inputs, axis)
      invariant forall j :: 0 <= j < i ==> others[j] in dims && dims[others[j]] == inputs[0].Get(others[j])
    {
      dims := dims[others[i] := inputs[0].Get(others[i])];
      i := i + 1;
    }
    AllAxesListsEachOnce();
    assert forall a :: a in dims by {
      forall a ensures a in dims {
        if a != axis {
          assert a in others;
        }
      }
    }
    out := LayerSize(dims[H], dims[W], dims[F]);
    assert forall a :: a != axis ==> a in others && dims[a] == inputs[0].Get(a);
    shader := if axis == H then "concat_y" else if axis == W then "concat_x" else "concat_z";
    if inputs[0].f <= 4 {
      shader := shader + "_3";
    }
  }

  /** `Concat.maxInputTextures`: the kernel's texture slots. */
  const MaxInputTextures: int := 10

  /** `validatePreconditions`: the debug assertions hold. The zero test of
      Swift's remainder agrees with Dafny's (`SwiftInt.RemZeroBy4`). */
  predicate ConcatValid(axis: Axis, inputs: seq<LayerSize>) {
    |inputs| >= 1 &&
    (axis == F ==> forall i :: 0 <= i < |inputs| ==> inputs[i].f % 4 == 0) &&
    |inputs| <= MaxInputTextures &&
    ((forall i :: 0 <= i < |inputs| ==> inputs[i].f > 4) || (forall i :: 0 <= i < |inputs| ==> inputs[i].f <= 4)) &&
    forall i, a :: 0 <= i < |inputs| && a != axis ==> inputs[i].Get(a) == inputs[0].Get(a)
  }

  /** When the preconditions hold, every input agrees with the output on the
      axes not concatenated, a channel concatenation has a multiple of 4
      channels, and every input fits in the kernel's texture slots. */
  lemma ConcatValidOutput(axis: Axis, inputs: seq<LayerSize>, out: LayerSize)
    requires ConcatValid(axis, inputs)
    requires out.Get(axis) == SumAlong(inputs, axis)
    requires forall a :: a != axis ==> out.Get(a) == inputs[0].Get(a)
    ensures forall i, a :: 0 <= i < |inputs| && a != axis ==> inputs[i].Get(a) == out.Get(a)
    ensures axis == F ==> out.f % 4 == 0
    ensures SwiftInt.Min(MaxInputTextures, |inputs|) == |inputs|
  {
    if axis == F {
      SumMultipleOf4(inputs);
    }
  }

  lemma {:induction false} SumMultipleOf4(inputs: seq<LayerSize>)
    requires forall i :: 0 <= i < |inputs| ==> inputs[i].f % 4 == 0
    ensures SumAlong(inputs, F) % 4 == 0
    decreases |inputs|
  {
    if inputs != [] {
      var front := inputs[..|inputs| - 1];
      assert forall i :: 0 <= i < |front| ==> front[i] == inputs[i];
      SumMultipleOf4(front);
    }
  }

  /** Along the concatenation axis the output holds every input: the sum of
      non-negative extents is at least each one of them. */
  lemma {:induction false} SumAlongCovers(inputs: seq<LayerSize>, axis: Axis, k: int)
    requires forall i :: 0 <= i < |inputs| ==> inputs[i].Get(axis) >= 0
    requires 0 <= k < |inputs|
    ensures SumAlong(inputs, axis) >= inputs[k].Get(axis)
    ensures SumAlong(inputs, axis) >= 0
    decreases |inputs|
  {
    var front := inputs[..|inputs| - 1];
    assert forall i :: 0 <= i < |front| ==> front[i] == inputs[i];
    if |front| > 0 {
      SumAlongCovers(front, axis, if k < |front| then k else 0);
    }
  }

  // ---------------------------------------------------------------------------
  // FullyConnected

  /** `FullyConnected.getWeightsSize`. */
  function FullyConnectedWeightsCount(prev: LayerSize, neurons: int): int {
    prev.f * prev.w * prev.h * neurons
  }

  /** The tensor shape passed to the transpose function. */
  function FullyConnectedShape(prev: LayerSize, neurons: int): Shape {
    Shape(prev.w, prev.h, prev.f, neurons)
  }

  /** The weights loaded are the elements of the tensor the transpose function
      reorders. */
  lemma FullyConnectedWeightsAreTensor(prev: LayerSize, neurons: int)
    ensures FullyConnectedWeightsCount(prev, neurons) == TotalCount(FullyConnectedShape(prev, neurons))
  {
    TotalCountIsProduct(FullyConnectedShape(prev, neurons));
    MulRotate(prev.f, prev.w, prev.h, neurons);
    MulSwapMiddle(prev.h, prev.w, prev.f, neurons);
  }

  /** A fully connected layer; `T` is the element type of the weight data. */
  class FullyConnected<T> {
    const id: string
    const neurons: int
    const useBias: bool
    var weights: Option<seq<T>>
    const bias: Option<seq<T>>
    const transpose: Option<(seq<T>, Shape) -> seq<T>>
    var prevSize: Option<LayerSize>
    var outputSize: Option<LayerSize>

    constructor(id: string, neurons: int, useBias: bool, weights: Option<seq<T>>, bias: Option<seq<T>>,
                transpose: Option<(seq<T>, Shape) -> seq<T>>)
      ensures this.id == id && this.neurons == neurons && this.useBias == useBias
      ensures this.weights == weights && this.bias == bias && this.transpose == transpose
      ensures prevSize == None && outputSize == None
    {
      this.id := id;
      this.neurons := neurons;
      this.useBias := useBias;
      this.weights := weights;
      this.bias := bias;
      this.transpose := transpose;
      prevSize := None;
      outputSize := None;
    }

    /** `initialize`: reports the single-input assertion, takes the first
        input's size, outputs a 1×1 image of `neurons` channels, reorders given
        weights with the transpose function when there is one, and asks the
        loader for what was not given. */
    method Initialize(incoming: seq<LayerSize>) returns (assertionHolds: bool, requests: seq<LoadRequest>)
      requires |incoming| >= 1
      modifies this
      ensures assertionHolds <==> SingleInput(|incoming|)
      ensures prevSize == Some(incoming[0])
      ensures outputSize == Some(LayerSize(1, 1, neurons))
      ensures weights == (if transpose.Some? && old(weights).Some?
                          then Some(transpose.value(old(weights).value, FullyConnectedShape(incoming[0], neurons)))
                          else old(weights))
      ensures requests == ParameterRequests(id, weights.Some?, useBias, bias.Some?,
                                            FullyConnectedWeightsCount(incoming[0], neurons), neurons)
    {
      assertionHolds := |incoming| == 1;
      prevSize := Some(incoming[0]);
      outputSize := Some(LayerSize(1, 1, neurons));
      if transpose.Some? && weights.Some? {
        weights := Some(transpose.value(weights.value, FullyConnectedShape(incoming[0], neurons)));
      }
      requests := ParameterRequests(id, weights.Some?, useBias, bias.Some?,
                                    FullyConnectedWeightsCount(incoming[0], neurons), neurons);
    }
  }

  // ---------------------------------------------------------------------------
  // BatchNorm

  /** `BatchNorm.meanModifier` and the others. */
  const MeanModifier: string := "mean"
  const VarianceModifier: string := "variance"
  const ScaleModifier: string := "scale"
  const OffsetModifier: string := "offset"

  /** `[Float](repeating: x, count: n)`. */
  function Fill<T>(x: T, n: nat): (r: seq<T>)
    ensures |r| == n && forall i :: 0 <= i < n ==> r[i] == x
  {
    seq(n, _ => x)
  }

  /** The floats the parameter loader returns for the four modifiers. */
  datatype Loaded<T> = Loaded(mean: seq<T>, variance: seq<T>, scale: seq<T>, offset: seq<T>)

  /** The kernel name: `batch_norm` for more than 4 channels, `batch_norm_3` otherwise. */
  function BatchNormKernel(channels: int): (name: string)
    ensures |name| >= 10 && name[..10] == "batch_norm"
    ensures name == "batch_norm" <==> channels > 4
  {
    "batch_norm" + (if channels > 4 then "" else "_3")
  }

  /** `(max(4, f) * 4 + 1)`: the number of half floats copied to the parameter buffer. */
  function BatchNormBufferLength(channels: int): int {
    SwiftInt.Max(4, channels) * 4 + 1
  }

  /** A batch normalisation layer; `T` is the parameter element type (the
      conversion to half floats is not part of this model). */
  class BatchNorm<T> {
    const id: string
    const epsilon: T
    var params: Option<seq<T>>
    var allParamsSet: bool
    var kernel: string
    var bufferLength: Option<int>
    var outputSize: Option<LayerSize>

    /** `init`: with mean and variance all parameters are laid out as mean,
        variance, scale (ones when missing), offset (zeros when missing) and
        epsilon; with only scale and offset those two are kept for
        `initialize`. The byte count over 4 of the source is the float count here. */
    constructor(id: string, mean: Option<seq<T>>, variance: Option<seq<T>>, offset: Option<seq<T>>,
                scale: Option<seq<T>>, epsilon: T, one: T, zero: T)
      ensures this.id == id && this.epsilon == epsilon && outputSize == None && bufferLength == None
      ensures mean.Some? && variance.Some? ==>
        allParamsSet &&
        params == Some(mean.value + variance.value
                       + (if scale.Some? then scale.value else Fill(one, |variance.value|))
                       + (if offset.Some? then offset.value else Fill(zero, |variance.value|))
                       + [epsilon])
      ensures !(mean.Some? && variance.Some?) ==>
        !allParamsSet &&
        params == (if scale.Some? && offset.Some? then Some(scale.value + offset.value) else None)
    {
      this.id := id;
      this.epsilon := epsilon;
      outputSize := None;
      bufferLength := None;
      kernel := "";
      if mean.Some? && variance.Some? {
        var p := mean.value + variance.value;
        p := p + (if scale.Some? then scale.value else Fill(one, |variance.value|));
        p := p + (if offset.Some? then offset.value else Fill(zero, |variance.value|));
        p := p + [epsilon];
        params := Some(p);
        allParamsSet := true;
      } else if scale.Some? && offset.Some? {
        params := Some(scale.value + offset.value);
        allParamsSet := false;
      } else {
        params := None;
        allParamsSet := false;
      }
    }

    /** `initialize`: unless all parameters were given, loads mean and
        variance, then scale and offset unless given, and appends epsilon; the
        buffer is sized for `max(4, f)` channels. */
    method Initialize(size: LayerSize, loaded: Loaded<T>) returns (requests: seq<LoadRequest>)
      modifies this
      ensures outputSize == Some(size) && kernel == BatchNormKernel(size.f)
      ensures allParamsSet == old(allParamsSet)
      ensures old(allParamsSet) ==> params == old(params) && requests == []
      ensures !old(allParamsSet) ==>
        params == Some(loaded.mean + loaded.variance
                       + (if old(params).Some? then old(params).value else loaded.scale + loaded.offset)
                       + [epsilon]) &&
        requests == [LoadRequest(id, MeanModifier, size.f), LoadRequest(id, VarianceModifier, size.f)]
                    + (if old(params).Some? then []
                       else [LoadRequest(id, ScaleModifier, size.f), LoadRequest(id, OffsetModifier, size.f)])
      ensures bufferLength == (if params.Some? then Some(BatchNormBufferLength(size.f)) else None)
    {
      outputSize := Some(size);
      kernel := BatchNormKernel(size.f);
      requests := [];
      if !allParamsSet {
        var d1 := loaded.mean;
        requests := requests + [LoadRequest(id, MeanModifier, size.f)];
        d1 := d1 + loaded.variance;
        requests := requests + [LoadRequest(id, VarianceModifier, size.f)];
        if params.Some? {
          d1 := d1 + params.value;
        } else {
          d1 := d1 + loaded.scale;
          d1 := d1 + loaded.offset;
          assert d1 == loaded.mean + loaded.variance + (loaded.scale + loaded.offset);
          requests := requests + [LoadRequest(id, ScaleModifier, size.f), LoadRequest(id, OffsetModifier, size.f)];
        }
        d1 := d1 + [epsilon];
        params := Some(d1);
      }
      bufferLength := if params.Some? then Some(BatchNormBufferLength(size.f)) else None;
    }
  }

  /** The parameter layout holds four blocks of `f` values and epsilon. For 4
      or more channels the buffer copies exactly that many values; for fewer
      than 4 it copies more values than the parameters hold. */
  lemma BatchNormBufferFit(f: int, p: seq<int>)
    requires f >= 1 && |p| == 4 * f + 1
    ensures f >= 4 ==> BatchNormBufferLength(f) == |p|
    ensures f < 4 ==> BatchNormBufferLength(f) > |p|
  {
  }

  /** Parameters given in full come out in the layout `initialize` builds from
      the loader: four blocks of the variance's length and epsilon. */
  lemma BatchNormLayout<T>(mean: seq<T>, variance: seq<T>, scale: Option<seq<T>>, offset: Option<seq<T>>,
                           epsilon: T, one: T, zero: T)
    requires |mean| == |variance|
    requires scale.Some? ==> |scale.value| == |variance|
    requires offset.Some? ==> |offset.value| == |variance|
    ensures var n := |variance|;
            var p := mean + variance
                     + (if scale.Some? then scale.value else Fill(one, n))
                     + (if offset.Some? then offset.value else Fill(zero, n)) + [epsilon];
      |p| == 4 * n + 1 && p[..n] == mean && p[n..2 * n] == variance && p[4 * n] == epsilon &&
      (scale.None? ==> forall i :: 2 * n <= i < 3 * n ==> p[i] == one) &&
      (offset.None? ==> forall i :: 3 * n <= i < 4 * n ==> p[i] == zero)
  {
  }

  // ---------------------------------------------------------------------------
  // Crop and Start

  /** `Crop.execute`: the source origin, centring the crop in the input. */
  function CropOrigin(input: LayerSize, out: LayerSize): Offset {
    Offset(SwiftInt.Div(input.w - out.w, 2), SwiftInt.Div(input.h - out.h, 2))
  }

  /** The region copied lies inside the input, with margins on either side that
      differ by at most one (the extra column or row on the right or bottom). */
  lemma CropCentred(input: LayerSize, out: LayerSize)
    requires 0 <= out.w <= input.w && 0 <= out.h <= input.h
    ensures var o := CropOrigin(input, out);
      0 <= o.x && o.x + out.w <= input.w && 0 <= o.y && o.y + out.h <= input.h &&
      o.x <= input.w - out.w - o.x <= o.x + 1 && o.y <= input.h - out.h - o.y <= o.y + 1
  {
  }

  /** How the Double comparison of aspect ratios in `Start.execute` came out,
      with the scaled extent it rounds to (the floating point is not part of this
      model). */
  datatype Aspect = SameAspect | Wider(scaledW: int) | Taller(scaledH: int)

  /** What `Start.execute` does with the input image. */
  datatype StartPlan =
    | PassThrough
    | CropThenScale(cropX: int, cropY: int, cropSize: int)
    | ScaleOnly
    | ScaleThenCrop(scaledW: int, scaledH: int, crop: Offset)

  /** `Start.execute`: an input of the right size is passed through; a square
      output with `useCropScale` takes the largest centred square and scales it;
      otherwise the input is scaled to cover the output and the excess is
      cropped from the centre. */
  function StartPlanFor(input: LayerSize, output: LayerSize, useCropScale: bool, aspect: Aspect): (p: StartPlan)
    ensures p.PassThrough? <==> input == output
    ensures p.CropThenScale? <==> input != output && output.w == output.h && useCropScale
    ensures p.ScaleThenCrop? ==> p.crop == CropOrigin(LayerSize(p.scaledH, p.scaledW, output.f), output)
  {
    if input == output then PassThrough
    else if output.w == output.h && useCropScale then
      var cropSize := SwiftInt.Min(input.w, input.h);
      var diff := input.w - input.h;
      var cropY := if diff < 0 then SwiftInt.Div(diff, -2) else 0;
      var cropX := if diff < 0 then 0 else SwiftInt.Div(diff, 2);
      CropThenScale(cropX, cropY, cropSize)
    else
      match aspect
      case SameAspect => ScaleOnly
      case Wider(scaledW) =>
        ScaleThenCrop(scaledW, output.h, Offset(SwiftInt.Div(scaledW - output.w, 2), SwiftInt.Div(output.h - output.h, 2)))
      case Taller(scaledH) =>
        ScaleThenCrop(output.w, scaledH, Offset(SwiftInt.Div(output.w - output.w, 2), SwiftInt.Div(scaledH - output.h, 2)))
  }

  /** The square cropped before scaling is the largest one, lies inside the
      input and is centred along its longer side. */
  lemma StartCropSquareCentred(input: LayerSize, output: LayerSize, aspect: Aspect)
    requires input.w >= 0 && input.h >= 0
    requires input != output && output.w == output.h
    ensures var p := StartPlanFor(input, output, true, aspect);
      p.CropThenScale? &&
      p.cropSize == SwiftInt.Min(input.w, input.h) &&
      0 <= p.cropX && p.cropX + p.cropSize <= input.w && 0 <= p.cropY && p.cropY + p.cropSize <= input.h &&
      p.cropX <= input.w - p.cropSize - p.cropX <= p.cropX + 1 &&
      p.cropY <= input.h - p.cropSize - p.cropY <= p.cropY + 1
  {
  }
}
