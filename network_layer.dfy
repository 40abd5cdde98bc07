/** `NetworkLayer`, Sources/Core/NetworkLayer.swift: a node of the network
    graph that owns its output images.

    A layer is one node of the shared `NodeTable` (its `node` index); the
    graph's lists stand for `edgeIn`/`edgeOut`, and `getOutgoing().count` is
    the length of the node's outgoing list. The weak `network` reference is
    kept as the `maxConcurrentExecutions` it would be read for (`None` when
    the layer has no network). Swift's debug `assert`s on indices become
    preconditions, as the array access they guard traps anyway. */
module NetworkLayers {
  import opened Wrappers
  import opened Sizes
  import opened Images
  import opened Strings
  import opened Graph

  /** The id of the anonymous layer created while the static counter is `counter`. */
  function AnonymousId(counter: nat): (id: string)
    ensures StartsWith(id, "Anonymous_")
  {
    StartsWithConcat("Anonymous_", NatToString(counter));
    "Anonymous_" + NatToString(counter)
  }

  /** Anonymous ids made at different counter values differ. */
  lemma AnonymousIdsDistinct(a: nat, b: nat)
    requires a != b
    ensures AnonymousId(a) != AnonymousId(b)
  {
    if AnonymousId(a) == AnonymousId(b) {
      StartsWithConcat("Anonymous_", NatToString(a));
      StartsWithConcat("Anonymous_", NatToString(b));
      NatToStringInjective(a, b);
    }
  }

  /** The `private static var counter` shared by all layers. */
  class IdCounter {
    var counter: nat

    constructor ()
      ensures counter == 0
    {
      counter := 0;
    }

    /** The id choice of `init(id:)`: a given id is kept; otherwise an anonymous id is drawn and the counter moves on. */
    method NextId(id: Option<string>) returns (r: string)
      modifies this
      ensures id.Some? ==> r == id.value && counter == old(counter)
      ensures id.None? ==> r == AnonymousId(old(counter)) && counter == old(counter) + 1
    {
      if id.Some? {
        r := id.value;
      } else {
        r := AnonymousId(counter);
        counter := counter + 1;
      }
    }
  }

  /** `==` on layers: equal ids. */
  predicate SameId(a: string, b: string) {
    a == b
  }

  /** Two anonymous layers made by successive initialisers are never `==`. */
  lemma AnonymousLayersUnequal(c: nat, k: nat)
    requires k > 0
    ensures !SameId(AnonymousId(c), AnonymousId(c + k))
  {
    AnonymousIdsDistinct(c, c + k);
  }

  class Layer {
    var id: string
    /** This layer's node in the graph table. */
    const node: Id
    /** `outputSize` (an implicitly unwrapped optional). */
    var outputSize: Option<LayerSize>
    /** The permanent output images, one per concurrent execution. */
    var outputs: seq<Image>
    /** The temporary output image, if any. */
    var outputImage: Image?
    /** The descriptor for temporary images. */
    var descriptor: Option<Descriptor>
    /** `network?.maxConcurrentExecutions`. */
    var network: Option<int>

    /** `init(id:)` with its id already chosen by `IdCounter.NextId`. */
    constructor (id: string, node: Id)
      ensures this.id == id && this.node == node
      ensures outputs == [] && outputImage == null && descriptor == None && outputSize == None && network == None
    {
      this.id := id;
      this.node := node;
      outputSize := None;
      outputs := [];
      outputImage := null;
      descriptor := None;
      network := None;
    }

    /** `createOutputs(size:temporary:)`. A temporary layer only records the descriptor; otherwise one
        permanent image of `size` is appended per concurrent execution. Without a network, or with a
        non-positive count, nothing is created and `ok` is false (the source's `assertionFailure`). */
    method CreateOutputs(size: LayerSize, temporary: bool) returns (ok: bool)
      modifies this
      ensures temporary ==> ok && descriptor == Some(DescriptorFor(size)) && outputs == old(outputs)
      ensures !temporary ==> descriptor == old(descriptor)
      ensures !temporary ==> (ok <==> network.Some? && network.value > 0)
      ensures !temporary && !ok ==> outputs == old(outputs)
      ensures !temporary && ok ==> |outputs| == |old(outputs)| + network.value && outputs[..|old(outputs)|] == old(outputs)
      ensures forall k :: |old(outputs)| <= k < |outputs| ==> !outputs[k].temporary && outputs[k].Size() == size
      ensures outputImage == old(outputImage) && network == old(network) && outputSize == old(outputSize) && id == old(id)
    {
      if temporary {
        descriptor := Some(DescriptorFor(size));
        return true;
      }
      if network.None? || network.value <= 0 {
        return false;
      }
      var n := network.value;
      for k := 0 to n
        invariant |outputs| == |old(outputs)| + k && outputs[..|old(outputs)|] == old(outputs)
        invariant forall j :: |old(outputs)| <= j < |outputs| ==> !outputs[j].temporary && outputs[j].Size() == size
        invariant descriptor == old(descriptor) && outputImage == old(outputImage) && network == old(network)
        invariant outputSize == old(outputSize) && id == old(id)
      {
        var img := new Image(DescriptorFor(size), false);
        DescriptorRoundTrip(size, img.descriptor);
        outputs := outputs + [img];
      }
      ok := true;
    }

    /** `getOutput(index:)`: the temporary image if there is one, else `outputs[index]`. */
    method GetOutput(index: int) returns (img: Image)
      requires outputImage == null ==> 0 <= index < |outputs|
      ensures img == if outputImage != null then outputImage else outputs[index]
    {
      if outputImage != null {
        img := outputImage;
      } else {
        img := outputs[index];
      }
    }

    /** `getOrCreateOutput(commandBuffer:index:)`. With a descriptor, a new temporary image is made only
        when there is none or the current one has been read by everyone (read count 0); the new one must
        be read once per outgoing layer. Without a descriptor it is `outputs[index]`. */
    method GetOrCreateOutput(g: NodeTable, index: int) returns (img: Image)
      requires g.Valid() && g.Has(node)
      requires descriptor.None? ==> 0 <= index < |outputs|
      modifies this
      ensures g.Has(node) && outputs == old(outputs) && descriptor == old(descriptor) && network == old(network)
      ensures descriptor.None? ==> img == outputs[index] && outputImage == old(outputImage)
      ensures descriptor.Some? && old(outputImage) != null && old(outputImage.readCount) != 0 ==>
        img == outputImage == old(outputImage) && img.readCount == old(outputImage.readCount)
      ensures descriptor.Some? && (old(outputImage) == null || old(outputImage.readCount) == 0) ==>
        fresh(img) && img == outputImage && img.temporary && img.descriptor == descriptor.value &&
        img.readCount == |g.edgeOut[node]|
      ensures outputSize == old(outputSize) && id == old(id)
    {
      if descriptor.Some? {
        if outputImage == null || outputImage.readCount == 0 {
          var temp := new Image(descriptor.value, true);
          temp.readCount := |g.edgeOut[node]|;
          outputImage := temp;
        }
        img := outputImage;
      } else {
        img := outputs[index];
      }
    }

    /** `rewireIdentity(at:image:)`: the layer passes `image` on as its output. A temporary image is
        adopted with one pending read per outgoing layer; a permanent one is stored at `index`, creating
        the permanent outputs first when there are none. */
    method RewireIdentity(g: NodeTable, index: int, image: Image)
      requires g.Valid() && g.Has(node)
      requires !image.temporary ==>
        0 <= index && outputSize.Some? && (if outputs == [] then network.Some? && index < network.value else index < |outputs|)
      modifies this, image
      ensures g.Has(node) && network == old(network) && outputSize == old(outputSize)
      ensures image.temporary ==> outputImage == image && image.readCount == |g.edgeOut[node]| && outputs == old(outputs)
      ensures !image.temporary ==> outputImage == old(outputImage) && image.readCount == old(image.readCount)
      ensures !image.temporary && old(outputs) != [] ==> outputs == old(outputs)[index := image]
      ensures !image.temporary && old(outputs) == [] ==>
        |outputs| == network.value && outputs[index] == image &&
        forall k :: 0 <= k < |outputs| && k != index ==> !outputs[k].temporary && outputs[k].Size() == outputSize.value
    {
      if image.temporary {
        outputImage := image;
        image.readCount := |g.edgeOut[node]|;
      } else {
        if outputs == [] {
          var _ := CreateOutputs(outputSize.value, false);
        }
        outputs := outputs[index := image];
      }
    }

    /** `destroy()`: a pending temporary image is released and the permanent outputs are dropped. */
    method Destroy()
      modifies this, outputImage
      ensures outputs == [] && outputImage == old(outputImage)
      ensures outputImage != null ==> outputImage.readCount == 0
      ensures descriptor == old(descriptor) && network == old(network) && outputSize == old(outputSize) && id == old(id)
    {
      if outputImage != null && outputImage.readCount != 0 {
        outputImage.readCount := 0;
      }
      outputs := [];
    }
  }

  /** `LayerGroup` and the `Group` view of a layer: the first and last node of a chain. */
  datatype LayerGroup = LayerGroup(input: Id, output: Id)

  /** A single layer is the group running from itself to itself. */
  function AsGroup(l: Id): (g: LayerGroup)
    ensures g.input == l && g.output == l
  {
    LayerGroup(l, l)
  }
}
