/** Sizes and small value helpers: Sources/Helpers/LayerSize.swift,
    Sources/Core/PaddingType.swift, Sources/Helpers/Shape.swift,
    Sources/Helpers/MTLTexture.swift and Sources/Helpers/Array.swift. */
module Sizes {
  import opened Wrappers
  import SwiftInt

  /** `LayerSizeAxis`. */
  datatype Axis = F | W | H

  /** `LayerSizeAxis.all`. */
  const AllAxes: seq<Axis> := [F, W, H]

  lemma AllAxesListsEachOnce()
    ensures forall a: Axis :: a in AllAxes
    ensures |AllAxes| == 3 && AllAxes[0] != AllAxes[1] && AllAxes[1] != AllAxes[2] && AllAxes[0] != AllAxes[2]
  {
    forall a: Axis ensures a in AllAxes {
      match a
      case F => assert AllAxes[0] == a;
      case W => assert AllAxes[1] == a;
      case H => assert AllAxes[2] == a;
    }
  }

  /** `LayerSizeAxis.fromTF(index:)`: the axis a TensorFlow NHWC dimension index names. */
  function AxisFromTF(index: int): (r: Option<Axis>)
    ensures r.Some? <==> 1 <= index <= 3
  {
    match index
    case 1 => Some(W)
    case 2 => Some(H)
    case 3 => Some(F)
    case _ => None
  }

  /** The NHWC index of each axis (the batch dimension 0 names no axis). */
  function AxisToTF(a: Axis): (index: int)
    ensures 1 <= index <= 3
  {
    match a
    case W => 1
    case H => 2
    case F => 3
  }

  /** `fromTF` inverts the NHWC numbering and reaches every axis exactly once. */
  lemma AxisFromTFInverse(a: Axis, index: int)
    ensures AxisFromTF(AxisToTF(a)) == Some(a)
    ensures AxisFromTF(index) == Some(a) ==> index == AxisToTF(a)
  {
  }

  /** `LayerSize`: height, width and feature channels of a layer's output. */
  datatype LayerSize = LayerSize(h: int, w: int, f: int) {
    /** `subscript(axis:)`. */
    function Get(axis: Axis): int {
      match axis
      case F => f
      case W => w
      case H => h
    }
  }

  /** `==` on `LayerSize`: field-wise. */
  predicate SameSize(a: LayerSize, b: LayerSize) {
    a.f == b.f && a.w == b.w && a.h == b.h
  }

  /** Field-wise equality is equality of the values, and a size is determined by its three subscripts. */
  lemma SameSizeIsEquality(a: LayerSize, b: LayerSize)
    ensures SameSize(a, b) <==> a == b
    ensures a == b <==> forall axis :: axis in AllAxes ==> a.Get(axis) == b.Get(axis)
  {
    if forall axis :: axis in AllAxes ==> a.Get(axis) == b.Get(axis) {
      assert a.Get(AllAxes[0]) == b.Get(AllAxes[0]);
      assert a.Get(AllAxes[1]) == b.Get(AllAxes[1]);
      assert a.Get(AllAxes[2]) == b.Get(AllAxes[2]);
    }
  }

  /** `ConvSize`. */
  datatype ConvSize = ConvSize(outputChannels: int, kernelWidth: int, kernelHeight: int, strideX: int, strideY: int)

  /** `ConvSize(outputChannels:kernelSize:stride:)`: a square kernel with equal strides. */
  function SquareConvSize(outputChannels: int, kernelSize: int, stride: int): (c: ConvSize)
    ensures c.outputChannels == outputChannels
    ensures c.kernelWidth == c.kernelHeight == kernelSize && c.strideX == c.strideY == stride
  {
    ConvSize(outputChannels, kernelSize, kernelSize, stride, stride)
  }

  /** Every square size with equal strides is built by `SquareConvSize`, from its own fields. */
  lemma SquareConvSizeOnto(c: ConvSize)
    requires c.kernelWidth == c.kernelHeight && c.strideX == c.strideY
    ensures SquareConvSize(c.outputChannels, c.kernelWidth, c.strideX) == c
  {
  }

  /** `PaddingType`. */
  datatype Padding = Same | Valid

  /** `PaddingType.fromTF`: total; only the exact string "SAME" gives SAME padding. */
  function PaddingFromTF(padding: string): (p: Padding)
    ensures p == Same <==> padding == "SAME"
    ensures p == Valid <==> padding != "SAME"
  {
    if padding == "SAME" then Same else Valid
  }

  lemma PaddingIsCaseSensitive()
    ensures PaddingFromTF("VALID") == Valid && PaddingFromTF("same") == Valid && PaddingFromTF("Same") == Valid
  {
  }

  /** `Shape`: the four dimensions of a weight tensor. */
  datatype Shape = Shape(width: int, height: int, inputChannels: int, outputChannels: int)

  /** `reduce(1) { $0 * $1 }`: a left fold of the products. */
  function Reduce(dims: seq<int>, acc: int): int
    decreases |dims|
  {
    if dims == [] then acc else Reduce(dims[1..], acc * dims[0])
  }

  /** The product of a list, folded from the right. */
  function Product(dims: seq<int>): int
    decreases |dims|
  {
    if dims == [] then 1 else dims[0] * Product(dims[1..])
  }

  lemma {:induction false} ReduceIsProduct(dims: seq<int>, acc: int)
    ensures Reduce(dims, acc) == acc * Product(dims)
    decreases |dims|
  {
    if dims != [] {
      ReduceIsProduct(dims[1..], acc * dims[0]);
      assert acc * dims[0] * Product(dims[1..]) == acc * (dims[0] * Product(dims[1..]));
    }
  }

  /** `Shape.totalCount`. */
  function TotalCount(s: Shape): int {
    Reduce([s.width, s.height, s.inputChannels, s.outputChannels], 1)
  }

  /** `totalCount` is the product of the four dimensions, and 0 exactly when one of them is. */
  lemma TotalCountIsProduct(s: Shape)
    ensures TotalCount(s) == s.width * s.height * s.inputChannels * s.outputChannels
    ensures s.width == 0 || s.height == 0 || s.inputChannels == 0 || s.outputChannels == 0 ==> TotalCount(s) == 0
  {
    var d := [s.width, s.height, s.inputChannels, s.outputChannels];
    ReduceIsProduct(d, 1);
    assert d[1..] == [s.height, s.inputChannels, s.outputChannels];
    assert d[1..][1..] == [s.inputChannels, s.outputChannels];
    assert d[1..][1..][1..] == [s.outputChannels];
    assert Product([s.outputChannels]) == s.outputChannels * Product([]);
    assert Product(d[1..][1..]) == s.inputChannels * s.outputChannels;
    assert Product(d[1..]) == s.height * (s.inputChannels * s.outputChannels);
    assert Product(d) == s.width * (s.height * (s.inputChannels * s.outputChannels));
    if s.width == 0 || s.height == 0 || s.inputChannels == 0 || s.outputChannels == 0 {
      MulZero(s.width, s.height, s.inputChannels, s.outputChannels);
    }
  }

  lemma MulZero(a: int, b: int, c: int, d: int)
    requires a == 0 || b == 0 || c == 0 || d == 0
    ensures a * b * c * d == 0
  {
  }

  /** The product of a list does not depend on the order of its elements. */
  lemma {:induction false} ProductPermutation(s: seq<int>, t: seq<int>)
    requires multiset(s) == multiset(t)
    ensures Product(s) == Product(t)
    decreases |s|
  {
    if s != [] {
      assert s[0] in multiset(t);
      var k :| 0 <= k < |t| && t[k] == s[0];
      var rest := t[..k] + t[k + 1..];
      assert t == t[..k] + [t[k]] + t[k + 1..];
      assert s == [s[0]] + s[1..];
      assert multiset(t) == multiset(t[..k]) + multiset{t[k]} + multiset(t[k + 1..]);
      assert multiset(rest) == multiset(t[..k]) + multiset(t[k + 1..]);
      assert multiset(s) == multiset{s[0]} + multiset(s[1..]);
      assert multiset(s[1..]) == multiset(s) - multiset{s[0]};
      assert multiset(rest) == multiset(t) - multiset{t[k]};
      ProductPermutation(s[1..], rest);
      ProductRemove(t, k);
    } else {
      assert |t| == |multiset(t)| == 0;
    }
  }

  lemma {:induction false} ProductRemove(t: seq<int>, k: nat)
    requires k < |t|
    ensures Product(t) == t[k] * Product(t[..k] + t[k + 1..])
    decreases k
  {
    if k > 0 {
      var u := t[1..];
      var r := u[..k - 1] + u[k..];
      var rest := t[..k] + t[k + 1..];
      ProductRemove(u, k - 1);
      assert rest == [t[0]] + r;
      assert rest[1..] == r;
      assert Product(rest) == t[0] * Product(r);
      assert Product(t) == t[0] * (t[k] * Product(r));
      MulSwap(t[0], t[k], Product(r));
    } else {
      assert t[..0] + t[1..] == t[1..];
    }
  }

  lemma MulSwap(a: int, b: int, c: int)
    ensures a * (b * c) == b * (a * c)
  {
  }

  /** `totalCount` is unchanged by reordering the dimensions. */
  lemma TotalCountOrderFree(s: Shape, dims: seq<int>)
    requires multiset(dims) == multiset([s.width, s.height, s.inputChannels, s.outputChannels])
    ensures Product(dims) == TotalCount(s)
  {
    var d := [s.width, s.height, s.inputChannels, s.outputChannels];
    ProductPermutation(dims, d);
    ReduceIsProduct(d, 1);
  }

  /** The dimensions of an `MTLTexture`. */
  datatype Texture = Texture(width: nat, height: nat, arrayLength: nat)

  /** `MTLSize`. */
  datatype GridSize = GridSize(width: int, height: int, depth: int)

  /** The number of thread groups of size `group` that cover `extent`: `max((extent + group - 1) / group, 1)`. */
  function Groups(extent: nat, group: int): (n: int)
    requires group > 0
    ensures n >= 1 && n * group >= extent
    ensures extent > 0 ==> (n - 1) * group < extent
  {
    var q := SwiftInt.Div(extent + group - 1, group);
    assert q == (extent + group - 1) / group;
    assert q * group <= extent + group - 1 < q * group + group;
    SwiftInt.Max(q, 1)
  }

  /** `threadGrid(threadGroup:)`: the fewest groups covering the texture in x and y, one layer per slice. */
  function ThreadGrid(t: Texture, group: GridSize): (grid: GridSize)
    requires group.width > 0 && group.height > 0
    ensures grid.width * group.width >= t.width && grid.height * group.height >= t.height
    ensures t.width > 0 ==> (grid.width - 1) * group.width < t.width
    ensures t.height > 0 ==> (grid.height - 1) * group.height < t.height
    ensures grid.width >= 1 && grid.height >= 1 && grid.depth == t.arrayLength
  {
    GridSize(Groups(t.width, group.width), Groups(t.height, group.height), t.arrayLength)
  }

  /** `MTLTexture.size`: four feature channels per slice. */
  function TextureSize(t: Texture): (s: LayerSize)
    ensures s.f == t.arrayLength * 4 && s.w == t.width && s.h == t.height
    ensures s.f % 4 == 0
  {
    LayerSize(t.height, t.width, t.arrayLength * 4)
  }

  /** `toData(count:)`: the first `min(count ?? self.count, self.count)` elements. A negative count traps. */
  function ToData<T>(s: seq<T>, count: Option<int>): (r: seq<T>)
    requires count.Some? ==> count.value >= 0
    ensures count.None? ==> r == s
    ensures count.Some? ==> |r| == SwiftInt.Min(count.value, |s|)
    ensures r <= s
  {
    var n := if count.Some? then SwiftInt.Min(count.value, |s|) else |s|;
    s[..n]
  }

  /** `cleanMap`: the non-nil results of `f`, in order. */
  function CleanMap<A, B>(s: seq<A>, f: A -> Option<B>): (r: seq<B>)
    ensures |r| <= |s|
    ensures forall y :: y in r ==> exists x :: x in s && f(x) == Some(y)
    decreases |s|
  {
    if s == [] then []
    else
      var rest := CleanMap(s[1..], f);
      assert forall y :: y in rest ==> exists x :: x in s && f(x) == Some(y) by {
        forall y | y in rest ensures exists x :: x in s && f(x) == Some(y) {
          var x :| x in s[1..] && f(x) == Some(y);
          assert x in s;
        }
      }
      match f(s[0])
      case Some(y) => [y] + rest
      case None => rest
  }

  /** Every non-nil result is kept: `cleanMap` over a concatenation is the concatenation of the two maps. */
  lemma {:induction false} CleanMapAppend<A, B>(s: seq<A>, t: seq<A>, f: A -> Option<B>)
    ensures CleanMap(s + t, f) == CleanMap(s, f) + CleanMap(t, f)
    decreases |s|
  {
    if s != [] {
      CleanMapAppend(s[1..], t, f);
      assert (s + t)[1..] == s[1..] + t;
    } else {
      assert s + t == t;
    }
  }

  /** A single element contributes its value exactly when `f` gives one. */
  lemma CleanMapSingle<A, B>(x: A, f: A -> Option<B>)
    ensures CleanMap([x], f) == if f(x).Some? then [f(x).value] else []
  {
  }
}
