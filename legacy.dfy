/** The legacy style-transfer pipeline: Sources/Core/NetworkPipeline.swift,
    Sources/Core/StyleNet.swift, Sources/Layers/ConvolutionLayer.swift and
    Sources/Layers/ConvTransposeLayer.swift.

    Images, buffers and kernels are opaque: a layer is modelled by its weight
    file names and sizes, and the pipeline is generic in its layers, with a
    layer's own behaviour passed in as a function. */
module Legacy {
  import opened Wrappers
  import opened Strings
  import opened Sizes
  import SwiftInt
  import Layers

  /** `LayerSize(f:w:)`: a square image. */
  function SquareSize(f: int, w: int): LayerSize
  {
    LayerSize(w, w, f)
  }

  /** The legacy `ConvSize`: an output size, a square kernel and one stride. */
  datatype LegacyConvSize = LegacyConvSize(layerSize: LayerSize, kernelSize: int, stride: int)

  // ---------------------------------------------------------------------------
  // Weight file renaming

  /** `replacingOccurrences(of: oldName, with: newName, options: .anchored)` on
      one file name: a leading `oldName` is replaced; an empty `oldName` matches
      nothing. */
  function Renamed(file: string, oldName: string, newName: string): string
  {
    if oldName != "" && StartsWith(file, oldName) then newName + file[|oldName|..] else file
  }

  /** The renaming loop of `updateCheckpoint`, as a value. */
  function RenameAll(files: seq<string>, oldName: string, newName: string): (r: seq<string>)
    ensures |r| == |files|
  {
    seq(|files|, i requires 0 <= i < |files| => Renamed(files[i], oldName, newName))
  }

  /** A name made of the old checkpoint and a suffix becomes the new checkpoint
      and the same suffix; a name that does not start with the old checkpoint is
      left alone. */
  lemma RenamedCheckpoint(checkpoint: string, suffix: string, newName: string)
    requires checkpoint != ""
    ensures Renamed(checkpoint + suffix, checkpoint, newName) == newName + suffix
  {
    StartsWithConcat(checkpoint, suffix);
  }

  lemma RenamedOther(file: string, oldName: string, newName: string)
    requires !StartsWith(file, oldName)
    ensures Renamed(file, oldName, newName) == file
  {
  }

  /** Renaming back restores a checkpoint-prefixed name when both checkpoints
      are non-empty. */
  lemma RenamedBack(checkpoint: string, suffix: string, newName: string)
    requires checkpoint != "" && newName != ""
    ensures Renamed(Renamed(checkpoint + suffix, checkpoint, newName), newName, checkpoint) == checkpoint + suffix
  {
    RenamedCheckpoint(checkpoint, suffix, newName);
    RenamedCheckpoint(newName, suffix, checkpoint);
  }

  /** With an empty old checkpoint no name changes, whatever the new one is. */
  lemma RenamedFromEmpty(file: string, newName: string)
    ensures Renamed(file, "", newName) == file
  {
  }

  /** The loop both legacy layers run over their file names. */
  method RenameFiles(files: seq<string>, oldName: string, newName: string) returns (r: seq<string>)
    ensures r == RenameAll(files, oldName, newName)
  {
    r := files;
    var index := 0;
    while index < |r|
      invariant 0 <= index <= |r| == |files|
      invariant r[..index] == RenameAll(files, oldName, newName)[..index]
      invariant r[index..] == files[index..]
    {
      r := r[index := Renamed(r[index], oldName, newName)];
      index := index + 1;
    }
  }

  /** The three files of a convolution layer: weights, instance-norm scale and
      instance-norm shift. */
  function LayerFiles(checkpoint: string, name: string): (r: seq<string>)
    ensures |r| == 3
    ensures forall i :: 0 <= i < 3 ==> StartsWith(r[i], checkpoint + "-" + name)
  {
    var base := checkpoint + "-" + name;
    StartsWithConcat(base, "");
    StartsWithConcat(base, "-instanceNormScale");
    StartsWithConcat(base, "-instanceNormShift");
    assert base + "" == base;
    [base, base + "-instanceNormScale", base + "-instanceNormShift"]
  }

  /** The suffixes after the checkpoint of a layer's files. */
  function LayerSuffixes(name: string): seq<string>
  {
    ["-" + name, "-" + name + "-instanceNormScale", "-" + name + "-instanceNormShift"]
  }

  lemma LayerFilesAreCheckpointPlusSuffix(checkpoint: string, name: string)
    ensures forall i :: 0 <= i < 3 ==> LayerFiles(checkpoint, name)[i] == checkpoint + LayerSuffixes(name)[i]
  {
    var f := LayerFiles(checkpoint, name);
    var s := LayerSuffixes(name);
    assert f[0] == checkpoint + s[0];
    assert f[1] == checkpoint + s[1];
    assert f[2] == checkpoint + s[2];
  }

  /** Renaming a layer's files from one non-empty checkpoint to another gives
      the files the layer would have been built with for the new one. */
  lemma RenameLayerFiles(checkpoint: string, name: string, newName: string)
    requires checkpoint != ""
    ensures RenameAll(LayerFiles(checkpoint, name), checkpoint, newName) == LayerFiles(newName, name)
  {
    LayerFilesAreCheckpointPlusSuffix(checkpoint, name);
    LayerFilesAreCheckpointPlusSuffix(newName, name);
    var s := LayerSuffixes(name);
    forall i | 0 <= i < 3
      ensures RenameAll(LayerFiles(checkpoint, name), checkpoint, newName)[i] == LayerFiles(newName, name)[i]
    {
      RenamedCheckpoint(checkpoint, s[i], newName);
    }
  }

  // ---------------------------------------------------------------------------
  // ConvolutionLayer

  /** `ActivationNeuronType`. */
  datatype NeuronType = Relu | Tanh | NoNeuron

  /** The MPS neuron a layer builds: ReLU with a = 0 or TanH with a = b = 1. */
  datatype Neuron = ReLU(a: int) | TanH(a: int, b: int)

  function NeuronFor(t: NeuronType): (n: Option<Neuron>)
    ensures n.Some? <==> t != NoNeuron
    ensures t == Relu ==> n == Some(ReLU(0))
    ensures t == Tanh ==> n == Some(TanH(1, 1))
  {
    match t
    case Relu => Some(ReLU(0))
    case Tanh => Some(TanH(1, 1))
    case NoNeuron => None
  }

  /** Images created by one `initialize`: convolution output, instance-norm
      output and, with a neuron, the neuron output. */
  function ImagesCreated(hasNeuron: bool): nat
  {
    if hasNeuron then 3 else 2
  }

  /** The image `execute` returns. */
  function OutputIndex(instanceNorm: bool, hasNeuron: bool): nat
  {
    if hasNeuron then 2 else if instanceNorm then 1 else 0
  }

  /** With instance norm on, `execute` returns the last image created, which is
      always one that exists. */
  lemma OutputIndexIsLastImage(hasNeuron: bool)
    ensures OutputIndex(true, hasNeuron) == ImagesCreated(hasNeuron) - 1
  {
  }

  lemma OutputIndexInRange(instanceNorm: bool, hasNeuron: bool)
    ensures OutputIndex(instanceNorm, hasNeuron) < ImagesCreated(hasNeuron)
  {
  }

  /** The descriptor of `makeConv`: a square kernel, one stride for both axes,
      `prev.f` input channels. */
  function LegacyDescriptor(prev: LayerSize, size: LegacyConvSize): Layers.ConvDescriptor
  {
    Layers.ConvDescriptor(size.kernelSize, size.kernelSize, prev.f, size.layerSize.f, size.stride, size.stride)
  }

  /** It is the descriptor the current Convolution layer builds for the
      matching square `ConvSize`. */
  lemma LegacyDescriptorIsSquareConvolution(prev: LayerSize, size: LegacyConvSize)
    ensures LegacyDescriptor(prev, size)
         == Layers.DescriptorFor(prev, SquareConvSize(size.layerSize.f, size.kernelSize, size.stride))
  {
  }

  class ConvolutionLayer {
    const size: LegacyConvSize
    const neuronType: NeuronType
    const padding: bool
    const instanceNorm: bool
    var weightsFiles: Option<seq<string>>
    var prevSize: Option<LayerSize>
    var neuron: Option<Neuron>
    /** How many output images have been created. */
    var outputImages: nat

    constructor(size: LegacyConvSize, neuronType: NeuronType := Relu, weightsFiles: seq<string>, padding: bool := true)
      ensures this.size == size && this.neuronType == neuronType && this.padding == padding
      ensures this.weightsFiles == Some(weightsFiles) && instanceNorm
      ensures prevSize == None && neuron == None && outputImages == 0
    {
      this.size := size;
      this.neuronType := neuronType;
      this.weightsFiles := Some(weightsFiles);
      this.padding := padding;
      instanceNorm := true;
      prevSize := None;
      neuron := None;
      outputImages := 0;
    }

    /** `initialize`: reads the three weight files (the source indexes them, so a
        layer with files has at least three), builds the neuron and appends the
        output images. */
    method Initialize(prev: LayerSize) returns (loads: seq<string>, descriptor: Layers.ConvDescriptor)
      requires weightsFiles.Some? ==> |weightsFiles.value| >= 3
      modifies this
      ensures weightsFiles == old(weightsFiles)
      ensures prevSize == Some(prev) && neuron == NeuronFor(neuronType)
      ensures outputImages == old(outputImages) + ImagesCreated(neuron.Some?)
      ensures loads == if weightsFiles.Some? then weightsFiles.value[..3] else []
      ensures descriptor == LegacyDescriptor(prev, size)
    {
      prevSize := Some(prev);
      loads := if weightsFiles.Some? then weightsFiles.value[..3] else [];
      descriptor := LegacyDescriptor(prev, size);
      neuron := NeuronFor(neuronType);
      outputImages := outputImages + 2;
      if neuron.Some? {
        outputImages := outputImages + 1;
      }
    }

    /** `updateCheckpoint`: renames every file (the file list is force-unwrapped)
        and reloads the three weights. */
    method UpdateCheckpoint(newName: string, oldName: string) returns (loads: seq<string>, descriptor: Layers.ConvDescriptor)
      requires weightsFiles.Some? && |weightsFiles.value| >= 3 && prevSize.Some?
      modifies this
      ensures prevSize == old(prevSize) && neuron == old(neuron) && outputImages == old(outputImages)
      ensures weightsFiles == Some(RenameAll(old(weightsFiles).value, oldName, newName))
      ensures loads == weightsFiles.value[..3]
      ensures descriptor == LegacyDescriptor(prevSize.value, size)
    {
      var renamed := RenameFiles(weightsFiles.value, oldName, newName);
      weightsFiles := Some(renamed);
      loads := renamed[..3];
      descriptor := LegacyDescriptor(prevSize.value, size);
    }

    /** The image `execute` returns: it is one `initialize` created. */
    method ExecuteOutput() returns (index: nat)
      requires outputImages >= ImagesCreated(neuron.Some?)
      ensures index == OutputIndex(instanceNorm, neuron.Some?) && index < outputImages
    {
      OutputIndexInRange(instanceNorm, neuron.Some?);
      index := OutputIndex(instanceNorm, neuron.Some?);
    }
  }

  // ---------------------------------------------------------------------------
  // ConvTransposeLayer

  /** `fixedBufferSize`: a 3×3 kernel from 4c to 2c channels, 72·c² floats,
      for c = `baseKernelCount`. */
  function FixedBufferSize(baseKernelCount: int): int
  {
    72 * baseKernelCount * baseKernelCount
  }

  /** The float count `loadWeightsForFixedSize` loads. */
  function TransposeWeightsCount(out: LayerSize, kernelSize: int, prev: LayerSize): int
  {
    out.f * kernelSize * kernelSize * prev.f
  }

  /** The widest transposed convolution of the style network (4c to 2c
      channels) fills the fixed buffer exactly; the second one (2c to c) needs a
      quarter of it. */
  lemma StyleTransposeCounts(c: int, w: int, pw: int)
    ensures TransposeWeightsCount(SquareSize(2 * c, w), 3, SquareSize(4 * c, pw)) == FixedBufferSize(c)
    ensures 4 * TransposeWeightsCount(SquareSize(c, w), 3, SquareSize(2 * c, pw)) == FixedBufferSize(c)
  {
    assert 2 * c * 3 * 3 * (4 * c) == 72 * c * c;
    assert 4 * (c * 3 * 3 * (2 * c)) == 72 * c * c;
  }

  /** `loadWeightsForFixedSize`: weights that already fill the buffer are used
      as they are; otherwise the `count` loaded floats are copied to the front of
      a fresh buffer of the fixed size, whose remaining floats are whatever the
      allocation held (`scratch`). */
  method LoadWeightsForFixedSize<T>(loaded: seq<T>, count: int, fixed: int, scratch: seq<T>) returns (r: seq<T>)
    requires 0 <= count <= |loaded|
    requires count <= fixed == |scratch|
    ensures count == fixed ==> r == loaded
    ensures count != fixed ==> |r| == fixed && r[..count] == loaded[..count] && r[count..] == scratch[count..]
  {
    if count == fixed {
      return loaded;
    }
    var buffer := new T[fixed](i requires 0 <= i < fixed => scratch[i]);
    for i := 0 to count
      invariant buffer[..] == loaded[..i] + scratch[i..]
    {
      buffer[i] := loaded[i];
      assert buffer[..] == loaded[..i + 1] + scratch[i + 1..];
    }
    r := buffer[..];
  }

  /** The intermediate image sizes, as the legacy layer builds them:
      `LayerSize(f:w:)` makes the first one square. */
  function LegacySteps(prev: LayerSize, out: LayerSize): (LayerSize, LayerSize)
  {
    (SquareSize(out.f, out.w + prev.w), LayerSize(out.h + prev.h, out.w, out.f))
  }

  /** For square images they are the steps of the current ConvTranspose
      layer. */
  lemma LegacyStepsMatchConvTranspose(prev: LayerSize, out: LayerSize)
    requires prev.h == prev.w && out.h == out.w
    ensures LegacySteps(prev, out) == Layers.ConvTransposeSteps(prev, out)
  {
  }

  class ConvTransposeLayer {
    const size: LegacyConvSize
    const fixedBufferSize: int
    var weightsFiles: Option<seq<string>>
    var prevSize: Option<LayerSize>
    var step1: LayerSize
    var step2: LayerSize
    /** Float count of each instance-norm buffer. */
    var inormLength: int

    constructor(size: LegacyConvSize, baseKernelCount: int, weightsFiles: seq<string>)
      ensures this.size == size && fixedBufferSize == FixedBufferSize(baseKernelCount)
      ensures this.weightsFiles == Some(weightsFiles) && prevSize == None
    {
      this.size := size;
      fixedBufferSize := FixedBufferSize(baseKernelCount);
      this.weightsFiles := Some(weightsFiles);
      prevSize := None;
      step1 := size.layerSize;
      step2 := size.layerSize;
      inormLength := 0;
    }

    /** `initialize`: the step images and, when files are given, the weight
        count to load and the instance-norm buffers of `max(4, f)` floats. */
    method Initialize(prev: LayerSize) returns (loads: seq<string>, weightCount: int)
      requires weightsFiles.Some? ==> |weightsFiles.value| >= 3
      modifies this
      ensures weightsFiles == old(weightsFiles)
      ensures prevSize == Some(prev) && (step1, step2) == LegacySteps(prev, size.layerSize)
      ensures weightCount == TransposeWeightsCount(size.layerSize, size.kernelSize, prev)
      ensures weightsFiles.Some? ==> loads == weightsFiles.value[..3] && inormLength == SwiftInt.Max(4, size.layerSize.f)
      ensures weightsFiles.None? ==> loads == [] && inormLength == old(inormLength)
    {
      prevSize := Some(prev);
      var (s1, s2) := LegacySteps(prev, size.layerSize);
      step1, step2 := s1, s2;
      weightCount := TransposeWeightsCount(size.layerSize, size.kernelSize, prev);
      loads := [];
      if weightsFiles.Some? {
        loads := weightsFiles.value[..3];
        inormLength := SwiftInt.Max(4, size.layerSize.f);
      }
    }

    /** `updateCheckpoint`: the same renaming as ConvolutionLayer, then a reload
        of the three files. */
    method UpdateCheckpoint(newName: string, oldName: string) returns (loads: seq<string>, weightCount: int)
      requires weightsFiles.Some? && |weightsFiles.value| >= 3 && prevSize.Some?
      modifies this
      ensures prevSize == old(prevSize) && step1 == old(step1) && step2 == old(step2) && inormLength == old(inormLength)
      ensures weightsFiles == Some(RenameAll(old(weightsFiles).value, oldName, newName))
      ensures loads == weightsFiles.value[..3]
      ensures weightCount == TransposeWeightsCount(size.layerSize, size.kernelSize, prevSize.value)
    {
      var renamed := RenameFiles(weightsFiles.value, oldName, newName);
      weightsFiles := Some(renamed);
      loads := renamed[..3];
      weightCount := TransposeWeightsCount(size.layerSize, size.kernelSize, prevSize.value);
    }
  }

  // ---------------------------------------------------------------------------
  // Pipeline

  /** The fold `execute` performs: each layer's output feeds the next. */
  function Run<L, I>(layers: seq<L>, input: I, step: (L, I) -> I): I
    decreases |layers|
  {
    if layers == [] then input
    else step(layers[|layers| - 1], Run(layers[..|layers| - 1], input, step))
  }

  /** Running two pipelines one after the other is running their
      concatenation. */
  lemma {:induction false} RunAppend<L, I>(a: seq<L>, b: seq<L>, input: I, step: (L, I) -> I)
    ensures Run(a + b, input, step) == Run(b, Run(a, input, step), step)
    decreases |b|
  {
    if b == [] {
      assert a + b == a;
    } else {
      var b' := b[..|b| - 1];
      assert (a + b)[..|a + b| - 1] == a + b';
      RunAppend(a, b', input, step);
    }
  }

  /** The positions a collection walk visits from `i` up to `end`. */
  function Walk(i: int, end: int): seq<int>
    decreases end - i
  {
    if i >= end then [] else [i] + Walk(i + 1, end)
  }

  lemma {:induction false} WalkVisitsEachOnce(i: int, end: int)
    requires i <= end
    ensures |Walk(i, end)| == end - i
    ensures forall k :: 0 <= k < end - i ==> Walk(i, end)[k] == i + k
    decreases end - i
  {
    if i < end {
      WalkVisitsEachOnce(i + 1, end);
    }
  }

  class Pipeline<L> {
    var layers: seq<L>
    var outputSize: Option<LayerSize>

    constructor(layers: seq<L>)
      ensures this.layers == layers && outputSize == None
    {
      this.layers := layers;
      outputSize := None;
    }

    /** `initialize`: each layer is handed the previous layer's output size
        (`outputOf` is what a layer reports after its own `initialize`); the
        pipeline's output size is the last one, or the input size when empty. */
    method Initialize(prevSize: LayerSize, outputOf: (L, LayerSize) -> LayerSize) returns (handed: seq<LayerSize>)
      modifies this
      ensures layers == old(layers)
      ensures |handed| == |layers|
      ensures forall i :: 0 <= i < |layers| ==> handed[i] == Run(layers[..i], prevSize, outputOf)
      ensures outputSize == Some(Run(layers, prevSize, outputOf))
    {
      var size := prevSize;
      handed := [];
      for i := 0 to |layers|
        invariant |handed| == i
        invariant forall k :: 0 <= k < i ==> handed[k] == Run(layers[..k], prevSize, outputOf)
        invariant size == Run(layers[..i], prevSize, outputOf)
      {
        handed := handed + [size];
        assert layers[..i + 1][..i] == layers[..i];
        size := outputOf(layers[i], size);
      }
      assert layers[..|layers|] == layers;
      outputSize := Some(size);
    }

    /** `updateCheckpoint`: every layer receives `(new, old)`, in order. */
    method UpdateCheckpoint(newName: string, oldName: string, update: (L, string, string) -> L)
      modifies this
      ensures |layers| == |old(layers)|
      ensures forall i :: 0 <= i < |layers| ==> layers[i] == update(old(layers)[i], newName, oldName)
      ensures outputSize == old(outputSize)
    {
      var i := 0;
      while i < |layers|
        invariant 0 <= i <= |layers| == |old(layers)|
        invariant forall k :: 0 <= k < i ==> layers[k] == update(old(layers)[k], newName, oldName)
        invariant forall k :: i <= k < |layers| ==> layers[k] == old(layers)[k]
        invariant outputSize == old(outputSize)
      {
        layers := layers[i := update(layers[i], newName, oldName)];
        i := i + 1;
      }
    }

    /** `execute`: the input passes through every layer in order; an empty
        pipeline returns it unchanged. */
    method Execute<I>(input: I, step: (L, I) -> I) returns (image: I)
      ensures image == Run(layers, input, step)
    {
      image := input;
      for i := 0 to |layers|
        invariant image == Run(layers[..i], input, step)
      {
        assert layers[..i + 1][..i] == layers[..i];
        image := step(layers[i], image);
      }
      assert layers[..|layers|] == layers;
    }

    function StartIndex(): int
    {
      0
    }

    function EndIndex(): int
      reads this
    {
      |layers|
    }

    function IndexAfter(i: int): int
    {
      i + 1
    }

    /** Walking the collection visits every position once, in order. */
    lemma Positions()
      ensures Walk(StartIndex(), EndIndex()) == seq(|layers|, k => k)
    {
      WalkVisitsEachOnce(StartIndex(), EndIndex());
    }

    /** The subscript getter (an index out of range traps). */
    function Get(position: int): L
      requires 0 <= position < |layers|
      reads this
    {
      layers[position]
    }

    /** The subscript setter replaces only `position`. */
    method Set(position: int, value: L)
      requires 0 <= position < |layers|
      modifies this
      ensures layers == old(layers)[position := value] && outputSize == old(outputSize)
    {
      layers := layers[position := value];
    }
  }

  // ---------------------------------------------------------------------------
  // StyleNet

  /** The layers with weight files, in network order, by the name between the
      checkpoint and the file kind. The residual blocks are not part of this
      model. */
  const StyleLayerNames: seq<string> := ["conv1", "conv2", "conv3", "conv_transp1", "conv_transp2", "convFinal"]

  /** The file lists of the network's layers for a checkpoint: the layers with
      weights, between the crop layer and the four output layers, which have
      none. */
  function StyleNetFiles(checkpoint: string): (r: seq<seq<string>>)
    ensures |r| == 11
    ensures forall i :: 1 <= i <= 6 ==> r[i] == LayerFiles(checkpoint, StyleLayerNames[i - 1])
    ensures r[0] == [] && r[7] == [] && r[8] == [] && r[9] == [] && r[10] == []
  {
    [[]] + seq(6, i requires 0 <= i < 6 => LayerFiles(checkpoint, StyleLayerNames[i])) + [[], [], [], []]
  }

  /** What a layer does with `updateCheckpoint(new:old:)`: the weighted layers
      rename their files and the others have an empty body. */
  function UpdateLayer(files: seq<string>, newName: string, oldName: string): seq<string>
  {
    RenameAll(files, oldName, newName)
  }

  class StyleNet {
    const network: Pipeline<seq<string>>
    var oldCheckpoint: string

    /** Every file name is built from the current checkpoint. */
    predicate Consistent()
      reads this, network
    {
      network.layers == StyleNetFiles(oldCheckpoint)
    }

    constructor(checkpoint: string)
      ensures oldCheckpoint == checkpoint && fresh(network) && Consistent()
    {
      oldCheckpoint := checkpoint;
      network := new Pipeline(StyleNetFiles(checkpoint));
    }

    /** `changeToCheckpoint`: nothing happens for the current checkpoint;
        otherwise every layer is told `(new, old)` and then the checkpoint is
        stored. */
    method ChangeToCheckpoint(checkpoint: string)
      modifies this, network
      ensures checkpoint == old(oldCheckpoint) ==>
        network.layers == old(network.layers) && oldCheckpoint == old(oldCheckpoint)
      ensures checkpoint != old(oldCheckpoint) ==>
        && |network.layers| == |old(network.layers)|
        && (forall i :: 0 <= i < |network.layers| ==>
              network.layers[i] == RenameAll(old(network.layers)[i], old(oldCheckpoint), checkpoint))
        && oldCheckpoint == checkpoint
      ensures old(Consistent()) && old(oldCheckpoint) != "" ==> Consistent()
    {
      if checkpoint == oldCheckpoint {
        return;
      }
      var before := oldCheckpoint;
      ghost var wasConsistent := Consistent();
      network.UpdateCheckpoint(checkpoint, oldCheckpoint, UpdateLayer);
      oldCheckpoint := checkpoint;
      if wasConsistent && before != "" {
        StyleFilesRenamed(before, checkpoint);
      }
    }
  }

  /** Renaming every file of the network from one non-empty checkpoint to
      another gives the network built for the new checkpoint. */
  lemma StyleFilesRenamed(oldName: string, newName: string)
    requires oldName != ""
    ensures var before := StyleNetFiles(oldName);
      seq(|before|, i requires 0 <= i < |before| => RenameAll(before[i], oldName, newName)) == StyleNetFiles(newName)
  {
    var before := StyleNetFiles(oldName);
    var after := StyleNetFiles(newName);
    forall i | 0 <= i < 11
      ensures RenameAll(before[i], oldName, newName) == after[i]
    {
      if 1 <= i <= 6 {
        RenameLayerFiles(oldName, StyleLayerNames[i - 1], newName);
      }
    }
  }

  /** Switching to the checkpoint just set changes nothing. */
  method ChangeTwice(net: StyleNet, checkpoint: string)
    modifies net, net.network
    ensures net.oldCheckpoint == checkpoint
    ensures old(net.oldCheckpoint) == checkpoint ==> net.network.layers == old(net.network.layers)
  {
    net.ChangeToCheckpoint(checkpoint);
    var once := net.network.layers;
    net.ChangeToCheckpoint(checkpoint);
    assert net.network.layers == once;
  }
}
