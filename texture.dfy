/** The `Texture` test helper (Example/Example/Tests/Helpers/Texture.swift) and
    the `argmax`/`argsort` array extensions (Example/MPSImage.swift).

    A texture holds one row of `depth` values per pixel, pixel `y·width + x`.
    On the GPU the values are stored in slices of four channels; a slice lists
    its pixels row by row, four lanes each, padding the lanes past `depth` with
    zero. The element type is generic: values are only copied, and the
    half-precision conversion of the source is not part of this model. */
module Textures {
  import opened Sizes

  // ---------------------------------------------------------------------------
  // Index arithmetic

  /** Division with remainder is unique. */
  lemma DivModUnique(r: int, d: int, q: int, m: int)
    requires d > 0 && 0 <= m < d && r == q * d + m
    ensures r / d == q && r % d == m
  {
    var q0, m0 := r / d, r % d;
    assert r == q0 * d + m0;
    assert (q - q0) * d == m0 - m;
    if q - q0 >= 1 {
      MulAtLeast(q - q0, d);
    } else if q - q0 <= -1 {
      MulAtLeast(q0 - q, d);
    }
  }

  lemma MulAtLeast(k: int, d: int)
    requires k >= 1 && d > 0
    ensures k * d >= d
  {
  }

  lemma DivModFacts(n: int, d: int)
    requires n >= 0 && d > 0
    ensures n / d >= 0 && 0 <= n % d < d && n == (n / d) * d + n % d
  {
  }

  lemma MulPositive(a: int, b: int)
    requires a > 0 && b > 0
    ensures a * b > 0
  {
  }

  lemma Assoc(a: int, b: int, c: int)
    ensures a * (b * c) == (a * b) * c && (a * b) * c == a * b * c
  {
  }

  /** A pixel index `y·w + x` with `x < w` and `y < h` is below `h·w`. */
  lemma PixelInRange(w: int, h: int, x: int, y: int)
    requires 0 <= x < w && 0 <= y < h
    ensures 0 <= y * w + x < h * w
  {
    assert y * w <= (h - 1) * w;
  }

  /** Every pixel index below `h·w` is `y·w + x` for its row and column. */
  lemma PixelSplit(w: int, h: int, q: int)
    requires w > 0 && 0 <= q < h * w
    ensures 0 <= q % w < w && 0 <= q / w < h && (q / w) * w + q % w == q
  {
    DivModFacts(q, w);
  }

  /** The flat index of lane `lane` of pixel `p` in slice `s`, for slices of
      `h·w·4` values. */
  function FlatIndex(w: int, h: int, s: int, p: int, lane: int): int
  {
    s * (h * w * 4) + p * 4 + lane
  }

  /** Where channel `z` of pixel `p` sits in the packed layout. */
  function Encode(w: int, h: int, p: int, z: int): int
  {
    FlatIndex(w, h, z / 4, p, z % 4)
  }

  datatype Cell = Cell(x: int, y: int, z: int)

  /** The decomposition `Texture(metalTexture:size:)` applies to a flat index. */
  function Decode(w: int, h: int, i: int): Cell
    requires w > 0 && h > 0
  {
    var sliceSize := h * w * 4;
    var slice := i / sliceSize;
    var index := i - slice * sliceSize;
    Cell((index % (w * 4)) / 4, index / (w * 4), index % 4 + slice * 4)
  }

  /** The three steps of `Decode` on an index inside a slice. */
  lemma DecodeInSlice(w: int, h: int, r: int, x: int, y: int, lane: int)
    requires w > 0 && 0 <= x < w && 0 <= lane < 4 && r == y * (w * 4) + (x * 4 + lane)
    ensures r / (w * 4) == y && r % (w * 4) == x * 4 + lane
    ensures (x * 4 + lane) / 4 == x && r % 4 == lane
  {
    DivModUnique(r, w * 4, y, x * 4 + lane);
    DivModUnique(x * 4 + lane, 4, x, lane);
    Assoc(y, w, 4);
    assert r == (y * w + x) * 4 + lane;
    DivModUnique(r, 4, y * w + x, lane);
  }

  /** Decoding the index of a lane gives back its pixel and the channel
      `4·slice + lane`. */
  lemma DecodeFlat(w: int, h: int, s: int, y: int, x: int, lane: int)
    requires w > 0 && h > 0 && s >= 0 && 0 <= y < h && 0 <= x < w && 0 <= lane < 4
    ensures Decode(w, h, FlatIndex(w, h, s, y * w + x, lane)) == Cell(x, y, lane + 4 * s)
  {
    var sliceSize := h * w * 4;
    var p := y * w + x;
    PixelInRange(w, h, x, y);
    var r := p * 4 + lane;
    Assoc(h, w, 4);
    assert r < sliceSize by {
      assert p + 1 <= h * w;
      assert p * 4 + 4 <= (h * w) * 4;
    }
    var i := FlatIndex(w, h, s, p, lane);
    DivModUnique(i, sliceSize, s, r);
    Assoc(y, w, 4);
    DecodeInSlice(w, h, r, x, y, lane);
  }

  /** Every non-negative flat index decodes to a pixel inside the image, and
      encoding that pixel's channel gives the index back. */
  lemma EncodeDecode(w: int, h: int, i: int)
    requires w > 0 && h > 0 && i >= 0
    ensures var c := Decode(w, h, i);
      && 0 <= c.x < w && 0 <= c.y < h && c.z >= 0
      && Encode(w, h, c.y * w + c.x, c.z) == i
  {
    var sliceSize := h * w * 4;
    Assoc(h, w, 4);
    MulPositive(h, w);
    DivModFacts(i, sliceSize);
    var s, r := i / sliceSize, i % sliceSize;
    DivModFacts(r, 4);
    var p, lane := r / 4, r % 4;
    assert p < h * w;
    PixelSplit(w, h, p);
    var x, y := p % w, p / w;
    assert i == FlatIndex(w, h, s, y * w + x, lane);
    DecodeFlat(w, h, s, y, x, lane);
    DivModUnique(lane + 4 * s, 4, s, lane);
  }

  /** Encoding then decoding a channel of a pixel inside the image gives it
      back. */
  lemma DecodeEncode(w: int, h: int, x: int, y: int, z: int)
    requires w > 0 && h > 0 && 0 <= x < w && 0 <= y < h && z >= 0
    ensures Decode(w, h, Encode(w, h, y * w + x, z)) == Cell(x, y, z)
  {
    DecodeFlat(w, h, z / 4, y, x, z % 4);
  }

  /** The number of four-channel slices of an image with `depth` channels. */
  function SliceCount(depth: int): int
  {
    (depth + 3) / 4
  }

  /** A channel inside the image lies in one of the slices. */
  lemma EncodeInPacked(w: int, h: int, p: int, z: int, depth: int)
    requires w > 0 && h > 0 && 0 <= p < h * w && 0 <= z < depth
    ensures 0 <= Encode(w, h, p, z) < SliceCount(depth) * (h * w * 4)
  {
    var s := z / 4;
    assert s + 1 <= SliceCount(depth);
    assert p * 4 + z % 4 < h * w * 4;
    assert s * (h * w * 4) + h * w * 4 == (s + 1) * (h * w * 4);
    assert (s + 1) * (h * w * 4) <= SliceCount(depth) * (h * w * 4);
  }

  // ---------------------------------------------------------------------------
  // Texture

  class Texture<T> {
    var data: seq<seq<T>>
    const size: LayerSize

    /** One row of `depth` values per pixel. */
    predicate Valid()
      reads this
    {
      && size.w >= 0 && size.h >= 0 && size.f >= 0
      && |data| == size.h * size.w
      && forall p :: 0 <= p < |data| ==> |data[p]| == size.f
    }

    constructor(data: seq<seq<T>>, size: LayerSize)
      ensures this.data == data && this.size == size
    {
      this.data := data;
      this.size := size;
    }

    /** `totalCount`: the number of values a valid texture holds. */
    function TotalCount(): (n: int)
      reads this
      ensures Valid() ==> n == |data| * size.f
    {
      size.f * size.w * size.h
    }

    /** The subscript getter, `data[y·width + x][z]` (out of range traps). */
    function Get(x: int, y: int, z: int): T
      requires 0 <= y * size.w + x < |data| && 0 <= z < |data[y * size.w + x]|
      reads this
    {
      data[y * size.w + x][z]
    }

    /** The subscript setter: only value `z` of pixel `y·width + x` changes. */
    method Set(x: int, y: int, z: int, value: T)
      requires 0 <= y * size.w + x < |data| && 0 <= z < |data[y * size.w + x]|
      modifies this
      ensures data == old(data)[y * size.w + x := old(data)[y * size.w + x][z := value]]
      ensures Get(x, y, z) == value
    {
      var p := y * size.w + x;
      data := data[p := data[p][z := value]];
    }

    /** The value the packed layout holds at flat index `k`: a channel of the
        pixel `k` decodes to, or the padding value past the last channel. */
    function PackedAt(k: int, zero: T): T
      requires Valid() && size.w > 0 && size.h > 0 && k >= 0
      reads this
    {
      EncodeDecode(size.w, size.h, k);
      var c := Decode(size.w, size.h, k);
      PixelInRange(size.w, size.h, c.x, c.y);
      if c.z < size.f then data[c.y * size.w + c.x][c.z] else zero
    }

    /** `metalTexture(with:)`: the slices, laid end to end, each listing for
        every row and column the four channels `4i .. 4i+3`, padded with
        `zero`. */
    method Pack(zero: T) returns (packed: seq<T>)
      requires Valid()
      ensures |packed| == SliceCount(size.f) * (size.h * size.w * 4)
      ensures forall k :: 0 <= k < |packed| ==> size.w > 0 && size.h > 0 && packed[k] == PackedAt(k, zero)
    {
      var w, h := size.w, size.h;
      var sliceSize := h * w * 4;
      packed := [];
      for s := 0 to SliceCount(size.f)
        invariant |packed| == s * sliceSize
        invariant forall k :: 0 <= k < |packed| ==> w > 0 && h > 0 && packed[k] == PackedAt(k, zero)
      {
        for y := 0 to h
          invariant |packed| == s * sliceSize + y * w * 4
          invariant forall k :: 0 <= k < |packed| ==> w > 0 && h > 0 && packed[k] == PackedAt(k, zero)
        {
          for x := 0 to w
            invariant |packed| == s * sliceSize + (y * w + x) * 4
            invariant forall k :: 0 <= k < |packed| ==> w > 0 && h > 0 && packed[k] == PackedAt(k, zero)
          {
            PixelInRange(w, h, x, y);
            for z := s * 4 to (s + 1) * 4
              invariant |packed| == FlatIndex(w, h, s, y * w + x, z - s * 4)
              invariant forall k :: 0 <= k < |packed| ==> w > 0 && h > 0 && packed[k] == PackedAt(k, zero)
            {
              DecodeFlat(w, h, s, y, x, z - s * 4);
              var value := if z < size.f then Get(x, y, z) else zero;
              packed := packed + [value];
            }
            assert (y * w + x) * 4 + 4 == (y * w + x + 1) * 4;
          }
          assert (y * w + w) * 4 == (y + 1) * w * 4;
        }
        assert h * w * 4 == sliceSize;
        assert s * sliceSize + sliceSize == (s + 1) * sliceSize;
      }
    }
  }

  /** Only the channel `Decode` names is placed at a flat index: any pixel and
      channel whose index is `i` are the decoded ones. */
  lemma EncodeOnlyDecoded(w: int, h: int, q: int, z: int, i: int)
    requires w > 0 && h > 0 && 0 <= q < h * w && z >= 0 && Encode(w, h, q, z) == i
    ensures var c := Decode(w, h, i); q == c.y * w + c.x && z == c.z
  {
    PixelSplit(w, h, q);
    DecodeEncode(w, h, q % w, q / w, z);
  }

  /** The unpacked values after the flat indices below `n` have been read: a
      channel holds its packed value if that lies below `n`, else `zero`. */
  ghost predicate UnpackedUpTo<T>(data: seq<seq<T>>, flat: seq<T>, w: int, h: int, depth: int, n: int, zero: T)
    requires n <= |flat|
  {
    && |data| == h * w
    && (forall p :: 0 <= p < |data| ==> |data[p]| == depth)
    && forall p, z :: 0 <= p < |data| && 0 <= z < depth ==>
         data[p][z] == if 0 <= Encode(w, h, p, z) < n then flat[Encode(w, h, p, z)] else zero
  }

  /** Reading flat index `i` into the channel it decodes to (or skipping it when
      that channel is padding) extends `UnpackedUpTo` by one index. */
  lemma UnpackStep<T>(data: seq<seq<T>>, flat: seq<T>, w: int, h: int, depth: int, i: int, zero: T)
    requires w > 0 && h > 0 && depth >= 0 && 0 <= i < |flat|
    requires UnpackedUpTo(data, flat, w, h, depth, i, zero)
    ensures var c := Decode(w, h, i);
      if 0 <= c.x < w && 0 <= c.y < h && 0 <= c.z < depth then
        0 <= c.y * w + c.x < |data|
        && UnpackedUpTo(data[c.y * w + c.x := data[c.y * w + c.x][c.z := flat[i]]], flat, w, h, depth, i + 1, zero)
      else UnpackedUpTo(data, flat, w, h, depth, i + 1, zero)
  {
    var c := Decode(w, h, i);
    EncodeDecode(w, h, i);
    forall q, z | 0 <= q < |data| && 0 <= z < depth && Encode(w, h, q, z) == i
      ensures q == c.y * w + c.x && z == c.z
    {
      EncodeOnlyDecoded(w, h, q, z, i);
    }
    if c.z < depth {
      PixelInRange(w, h, c.x, c.y);
    }
  }

  /** The texture `Texture(metalTexture:size:)` builds from the flat values of
      all slices: zeros, then every flat index whose decoded pixel and channel
      are inside the image writes its value there (the rest is padding). A
      non-empty input needs a non-empty image, or the division traps. */
  method Unpack<T>(flat: seq<T>, size: LayerSize, zero: T) returns (data: seq<seq<T>>)
    requires size.w >= 0 && size.h >= 0 && size.f >= 0
    requires |flat| > 0 ==> size.w > 0 && size.h > 0
    ensures |data| == size.h * size.w
    ensures forall p :: 0 <= p < |data| ==> |data[p]| == size.f
    ensures forall p, z :: 0 <= p < |data| && 0 <= z < size.f ==>
      data[p][z] == if 0 <= Encode(size.w, size.h, p, z) < |flat| then flat[Encode(size.w, size.h, p, z)] else zero
  {
    var w, h, depth := size.w, size.h, size.f;
    data := seq(h * w, _ => seq(depth, _ => zero));
    for i := 0 to |flat|
      invariant UnpackedUpTo(data, flat, w, h, depth, i, zero)
    {
      var c := Decode(w, h, i);
      UnpackStep(data, flat, w, h, depth, i, zero);
      if c.x >= 0 && c.x < w && c.y >= 0 && c.y < h && c.z >= 0 && c.z < depth {
        var p := c.y * w + c.x;
        data := data[p := data[p][c.z := flat[i]]];
      }
    }
  }

  /** The packed value at a channel's index is that channel. */
  lemma PackedAtEncode<T>(t: Texture<T>, p: int, z: int, zero: T)
    requires t.Valid() && t.size.w > 0 && t.size.h > 0 && 0 <= p < |t.data| && 0 <= z < t.size.f
    ensures Encode(t.size.w, t.size.h, p, z) >= 0
    ensures t.PackedAt(Encode(t.size.w, t.size.h, p, z), zero) == t.data[p][z]
  {
    var w, h := t.size.w, t.size.h;
    PixelSplit(w, h, p);
    DecodeEncode(w, h, p % w, p / w, z);
    EncodeInPacked(w, h, p, z, t.size.f);
  }

  /** Unpacking what packing produced gives the texture back: the round trip
      the texture conversion test checks. */
  method RoundTrip<T>(t: Texture<T>, zero: T) returns (back: seq<seq<T>>)
    requires t.Valid()
    ensures back == t.data
  {
    var packed := t.Pack(zero);
    var w, h := t.size.w, t.size.h;
    if w == 0 || h == 0 {
      assert h * w == 0;
    }
    back := Unpack(packed, t.size, zero);
    forall p | 0 <= p < |back|
      ensures back[p] == t.data[p]
    {
      forall z | 0 <= z < t.size.f
        ensures back[p][z] == t.data[p][z]
      {
        EncodeInPacked(w, h, p, z, t.size.f);
        PackedAtEncode(t, p, z, zero);
      }
    }
  }

  /** `isEqual(to:threshold:)`: textures of different sizes are never equal;
      otherwise every value is compared with `near` (the float tolerance is not
      part of this model). */
  function IsEqual<T>(a: Texture<T>, b: Texture<T>, near: (T, T) -> bool): (equal: bool)
    requires a.Valid() && b.Valid()
    reads a, b
    ensures equal ==> a.size == b.size
    ensures equal <==> (a.size == b.size &&
      forall p, z :: 0 <= p < |a.data| && 0 <= z < a.size.f ==> near(a.data[p][z], b.data[p][z]))
  {
    a.size == b.size &&
      forall p, z :: 0 <= p < |a.data| && 0 <= z < a.size.f ==> near(a.data[p][z], b.data[p][z])
  }

  // ---------------------------------------------------------------------------
  // argmax and argsort

  /** `argmax`: the first index of a largest element, and that element. */
  method Argmax(a: seq<int>) returns (maxIndex: int, maxValue: int)
    requires |a| > 0
    ensures 0 <= maxIndex < |a| && maxValue == a[maxIndex]
    ensures forall k :: 0 <= k < |a| ==> a[k] <= maxValue
    ensures forall k :: 0 <= k < maxIndex ==> a[k] < maxValue
  {
    maxIndex, maxValue := 0, a[0];
    for i := 1 to |a|
      invariant 0 <= maxIndex < i && maxValue == a[maxIndex]
      invariant forall k :: 0 <= k < i ==> a[k] <= maxValue
      invariant forall k :: 0 <= k < maxIndex ==> a[k] < maxValue
    {
      if a[i] > maxValue {
        maxValue := a[i];
        maxIndex := i;
      }
    }
  }

  /** The indices `0 ..< n`. */
  function Indices(n: nat): (r: seq<int>)
    ensures |r| == n && forall k :: 0 <= k < n ==> r[k] == k
  {
    seq(n, k => k)
  }

  /** Adjacent indices are in the order `less` asks for. */
  predicate SortedBy<T>(a: seq<T>, r: seq<int>, less: (T, T) -> bool)
  {
    && (forall k :: 0 <= k < |r| ==> 0 <= r[k] < |a|)
    && forall k :: 0 <= k < |r| - 1 ==> !less(a[r[k + 1]], a[r[k]])
  }

  /** `less` is asymmetric, as a strict order is. */
  ghost predicate Asymmetric<T(!new)>(less: (T, T) -> bool)
  {
    forall x, y :: less(x, y) ==> !less(y, x)
  }

  /** Putting `i` after every element it is not less than and before one it is
      less than keeps the order. */
  lemma InsertSorted<T(!new)>(a: seq<T>, r: seq<int>, j: int, i: int, less: (T, T) -> bool)
    requires Asymmetric(less)
    requires SortedBy(a, r, less) && 0 <= i < |a| && 0 <= j <= |r|
    requires j > 0 ==> !less(a[i], a[r[j - 1]])
    requires j < |r| ==> less(a[i], a[r[j]])
    ensures SortedBy(a, r[..j] + [i] + r[j..], less)
  {
    var r' := r[..j] + [i] + r[j..];
    forall k | 0 <= k < |r'| - 1
      ensures !less(a[r'[k + 1]], a[r'[k]])
    {
      if k + 1 < j {
        assert r'[k] == r[k] && r'[k + 1] == r[k + 1];
      } else if k > j {
        assert r'[k] == r[k - 1] && r'[k + 1] == r[k];
      }
    }
  }

  /** `argsort(by:)`: the indices sorted by comparing their elements. The
      library sort is stood in for by an insertion sort; `less` must be a strict
      order, as the library demands. */
  method Argsort<T(!new)>(a: seq<T>, less: (T, T) -> bool) returns (r: seq<int>)
    requires Asymmetric(less)
    ensures multiset(r) == multiset(Indices(|a|))
    ensures SortedBy(a, r, less)
  {
    r := [];
    for i := 0 to |a|
      invariant multiset(r) == multiset(Indices(i))
      invariant SortedBy(a, r, less)
    {
      var j := |r|;
      while j > 0 && less(a[i], a[r[j - 1]])
        invariant 0 <= j <= |r|
        invariant j < |r| ==> less(a[i], a[r[j]])
      {
        j := j - 1;
      }
      InsertSorted(a, r, j, i, less);
      assert r == r[..j] + r[j..];
      assert Indices(i + 1) == Indices(i) + [i];
      r := r[..j] + [i] + r[j..];
    }
  }
}
