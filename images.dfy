/** Images and descriptors, Sources/Helpers/MPSImageDescriptor.swift.

    An `MPSImage` is modelled by its size and by whether it is a temporary
    image; a temporary image carries the read count Metal uses to recycle it.
    The pixel storage is not modelled. */
module Images {
  import opened Sizes

  /** `MPSImageDescriptor`: the float16 channel format is fixed, so only the extent is kept. */
  datatype Descriptor = Descriptor(width: int, height: int, featureChannels: int)

  /** `MPSImageDescriptor(layerSize:)`. */
  function DescriptorFor(s: LayerSize): (d: Descriptor)
    ensures d.width == s.w && d.height == s.h && d.featureChannels == s.f
  {
    Descriptor(s.w, s.h, s.f)
  }

  /** `MPSImage.size` of an image made from descriptor `d`. */
  function SizeOf(d: Descriptor): (s: LayerSize)
    ensures s.h == d.height && s.w == d.width && s.f == d.featureChannels
  {
    LayerSize(d.height, d.width, d.featureChannels)
  }

  /** The descriptor built from a size gives images of that size, and back. */
  lemma DescriptorRoundTrip(s: LayerSize, d: Descriptor)
    ensures SizeOf(DescriptorFor(s)) == s
    ensures DescriptorFor(SizeOf(d)) == d
  {
  }

  /** `setRead` on a read count: a temporary image's count drops by one unless it is already 0. */
  function AfterRead(temporary: bool, readCount: nat): (r: nat)
    ensures temporary && readCount > 0 ==> r + 1 == readCount
    ensures !temporary || readCount == 0 ==> r == readCount
  {
    if temporary && readCount != 0 then readCount - 1 else readCount
  }

  /** The read count after `n` calls of `setRead`. */
  function AfterReads(temporary: bool, readCount: nat, n: nat): nat
    decreases n
  {
    if n == 0 then readCount else AfterRead(temporary, AfterReads(temporary, readCount, n - 1))
  }

  /** `n` reads of a temporary image leave `max(readCount - n, 0)`: once every reader has read it,
      the count is 0 and stays there. */
  lemma {:induction false} ReadsExhaust(readCount: nat, n: nat)
    ensures AfterReads(true, readCount, n) == if n <= readCount then readCount - n else 0
    ensures AfterReads(false, readCount, n) == readCount
    decreases n
  {
    if n > 0 {
      ReadsExhaust(readCount, n - 1);
    }
  }

  /** `MPSImage` / `MPSTemporaryImage`. */
  class Image {
    const descriptor: Descriptor
    const temporary: bool
    var readCount: nat

    /** A new image; a new temporary image starts with read count 1, as Metal's does. */
    constructor (d: Descriptor, temporary: bool)
      ensures this.descriptor == d && this.temporary == temporary
      ensures readCount == if temporary then 1 else 0
    {
      this.descriptor := d;
      this.temporary := temporary;
      readCount := if temporary then 1 else 0;
    }

    /** `MPSImage.size`. */
    function Size(): LayerSize {
      SizeOf(descriptor)
    }

    /** `setRead()`. */
    method SetRead()
      modifies this
      ensures readCount == AfterRead(temporary, old(readCount))
    {
      if temporary && readCount != 0 {
        readCount := readCount - 1;
      }
    }
  }
}
