/** The weight transpositions of Sources/Helpers/Helpers.swift:
    `HWIOtoOHWI` and `HWIOtoOWHI` copy every element of a TensorFlow HWIO
    weight tensor into a freshly allocated array at its position in the
    Metal layout, in four nested loops over (o, h, w, i).

    Positions are mixed-radix numbers: `Index4(a, A, b, B, c, C, d)` is
    `a + A * (b + B * (c + C * d))`. The products are written with `Mul`,
    repeated addition, so that each arithmetic fact the proofs use is one
    lemma about it (`MulIsTimes` connects it to `*`). Element values are only copied, so the
    element type is a parameter and `zero` stands for the `0.0` the output is
    filled with. */
module Transpose {
  import opened Sizes

  /** `A * x` for `A >= 0`, as `A` additions of `x`. */
  function Mul(A: int, x: int): int
    decreases A
  {
    if A <= 0 then 0 else x + Mul(A - 1, x)
  }

  lemma {:induction false} MulIsTimes(A: int, x: int)
    requires A >= 0
    ensures Mul(A, x) == A * x
    decreases A
  {
    if A > 0 {
      MulIsTimes(A - 1, x);
    }
  }

  lemma {:induction false} MulSucc(A: int, x: int)
    requires A >= 0
    ensures Mul(A, x + 1) == Mul(A, x) + A
    decreases A
  {
    if A > 0 {
      MulSucc(A - 1, x);
    }
  }

  function Index4(a: int, A: int, b: int, B: int, c: int, C: int, d: int): int {
    a + Mul(A, b + Mul(B, c + Mul(C, d)))
  }

  /** The four dimensions are valid loop bounds. */
  predicate ValidShape(s: Shape) {
    s.width >= 0 && s.height >= 0 && s.inputChannels >= 0 && s.outputChannels >= 0
  }

  predicate InRange(s: Shape, o: int, h: int, w: int, i: int) {
    0 <= o < s.outputChannels && 0 <= h < s.height && 0 <= w < s.width && 0 <= i < s.inputChannels
  }

  /** `wIndex`: the position of (o, h, w, i) in the HWIO input. */
  function HWIO(s: Shape, o: int, h: int, w: int, i: int): int {
    Index4(o, s.outputChannels, i, s.inputChannels, w, s.width, h)
  }

  /** `tIndex` of `HWIOtoOHWI`. It is also the rank of (o, h, w, i) in the loop order. */
  function OHWI(s: Shape, o: int, h: int, w: int, i: int): int {
    Index4(i, s.inputChannels, w, s.width, h, s.height, o)
  }

  /** `tIndex` of `HWIOtoOWHI`. */
  function OWHI(s: Shape, o: int, h: int, w: int, i: int): int {
    Index4(i, s.inputChannels, h, s.height, w, s.width, o)
  }

  datatype Layout = ToOHWI | ToOWHI

  function Target(layout: Layout, s: Shape, o: int, h: int, w: int, i: int): int {
    match layout
    case ToOHWI => OHWI(s, o, h, w, i)
    case ToOWHI => OWHI(s, o, h, w, i)
  }

  /** Every tuple ranked below `n` in the loop order has been copied to its target. */
  ghost predicate Copied<T>(layout: Layout, s: Shape, weights: seq<T>, t: seq<T>, n: int) {
    forall o, h, w, i :: InRange(s, o, h, w, i) && OHWI(s, o, h, w, i) < n ==>
      0 <= Target(layout, s, o, h, w, i) < |t| && 0 <= HWIO(s, o, h, w, i) < |weights| &&
      t[Target(layout, s, o, h, w, i)] == weights[HWIO(s, o, h, w, i)]
  }

  // Mixed-radix arithmetic.

  lemma {:induction false} MulMono(A: int, x: int, y: int)
    requires A >= 0 && x <= y
    ensures Mul(A, x) <= Mul(A, y)
    decreases A
  {
    if A > 0 {
      MulMono(A - 1, x, y);
    }
  }

  lemma {:induction false} MulNonNeg(A: int, x: int)
    requires x >= 0
    ensures Mul(A, x) >= 0
    decreases A
  {
    if A > 0 {
      MulNonNeg(A - 1, x);
    }
  }

  /** A digit below `A` followed by a higher part below `Y` stays below `A * Y`. */
  lemma Pack2Bound(a: int, A: int, x: int, Y: int)
    requires 0 <= a < A && 0 <= x < Y
    ensures 0 <= a + Mul(A, x) < Mul(A, Y)
  {
    MulNonNeg(A, x);
    MulSucc(A, x);
    MulMono(A, x + 1, Y);
  }

  /** The lowest digit and the higher part are determined by the number. */
  lemma Pack2Injective(a: int, x: int, a': int, x': int, A: int)
    requires 0 <= a < A && 0 <= a' < A && a + Mul(A, x) == a' + Mul(A, x')
    ensures a == a' && x == x'
  {
    if x < x' {
      MulSucc(A, x);
      MulMono(A, x + 1, x');
      assert false;
    } else if x' < x {
      MulSucc(A, x');
      MulMono(A, x' + 1, x);
      assert false;
    }
  }

  lemma Index4Bound(a: int, A: int, b: int, B: int, c: int, C: int, d: int, D: int)
    requires 0 <= a < A && 0 <= b < B && 0 <= c < C && 0 <= d < D
    ensures 0 <= Index4(a, A, b, B, c, C, d) < Mul(A, Mul(B, Mul(C, D)))
  {
    Pack2Bound(c, C, d, D);
    Pack2Bound(b, B, c + Mul(C, d), Mul(C, D));
    Pack2Bound(a, A, b + Mul(B, c + Mul(C, d)), Mul(B, Mul(C, D)));
  }

  lemma Index4Injective(a: int, b: int, c: int, d: int, a': int, b': int, c': int, d': int, A: int, B: int, C: int)
    requires 0 <= a < A && 0 <= b < B && 0 <= c < C && 0 <= a' < A && 0 <= b' < B && 0 <= c' < C
    requires Index4(a, A, b, B, c, C, d) == Index4(a', A, b', B, c', C, d')
    ensures a == a' && b == b' && c == c' && d == d'
  {
    Pack2Injective(a, b + Mul(B, c + Mul(C, d)), a', b' + Mul(B, c' + Mul(C, d')), A);
    Pack2Injective(b, c + Mul(C, d), b', c' + Mul(C, d'), B);
    Pack2Injective(c, d, c', d', C);
  }

  /** Every number below `A * (B * (C * D))` has digits. */
  lemma Index4Onto(k: int, A: int, B: int, C: int, D: int) returns (a: int, b: int, c: int, d: int)
    requires A > 0 && B > 0 && C > 0 && 0 <= k < Mul(A, Mul(B, Mul(C, D)))
    ensures 0 <= a < A && 0 <= b < B && 0 <= c < C && 0 <= d < D
    ensures Index4(a, A, b, B, c, C, d) == k
  {
    var x: int;
    a, x := Unpack(k, A, Mul(B, Mul(C, D)));
    var y: int;
    b, y := Unpack(x, B, Mul(C, D));
    c, d := Unpack(y, C, D);
  }

  lemma Unpack(k: int, A: int, Y: int) returns (a: int, x: int)
    requires A > 0 && 0 <= k < Mul(A, Y)
    ensures 0 <= a < A && 0 <= x < Y && k == a + Mul(A, x)
  {
    a, x := k % A, k / A;
    MulIsTimes(A, x);
    assert k == a + A * x;
    if x >= Y {
      MulMono(A, Y, x);
      assert false;
    }
  }

  /** `totalCount` is the product of the dimensions in `Shape` order. */
  lemma TotalCountMul(s: Shape)
    requires ValidShape(s)
    ensures TotalCount(s) == Mul(s.width, Mul(s.height, Mul(s.inputChannels, s.outputChannels)))
    ensures TotalCount(s) >= 0
  {
    var W, H, I, O := s.width, s.height, s.inputChannels, s.outputChannels;
    var d := [W, H, I, O];
    ReduceIsProduct(d, 1);
    assert d[1..] == [H, I, O];
    assert d[1..][1..] == [I, O];
    assert d[1..][1..][1..] == [O];
    assert Product([O]) == O * Product([]);
    assert Product(d[1..][1..]) == I * O;
    assert Product(d[1..]) == H * (I * O);
    assert Product(d) == W * (H * (I * O));
    MulIsTimes(I, O);
    MulIsTimes(H, Mul(I, O));
    MulIsTimes(W, Mul(H, Mul(I, O)));
    MulNonNeg(I, O);
    MulNonNeg(H, Mul(I, O));
    MulNonNeg(W, Mul(H, Mul(I, O)));
  }

  lemma {:induction false} MulDistrLeft(x: int, y: int, c: int)
    requires x >= 0 && y >= 0
    ensures Mul(x + y, c) == Mul(x, c) + Mul(y, c)
    decreases x
  {
    if x > 0 {
      MulDistrLeft(x - 1, y, c);
    }
  }

  lemma {:induction false} MulComm(a: int, b: int)
    requires a >= 0 && b >= 0
    ensures Mul(a, b) == Mul(b, a)
    decreases a
  {
    if a > 0 {
      MulComm(a - 1, b);
      MulSucc(b, a - 1);
    } else {
      MulZeroRight(b);
    }
  }

  lemma {:induction false} MulAssoc(a: int, b: int, c: int)
    requires a >= 0 && b >= 0
    ensures Mul(a, Mul(b, c)) == Mul(Mul(a, b), c)
    decreases a
  {
    if a > 0 {
      MulAssoc(a - 1, b, c);
      MulNonNeg(a - 1, b);
      MulDistrLeft(b, Mul(a - 1, b), c);
    }
  }

  /** `a * (b * x) == b * (a * x)`. */
  lemma MulSwap(a: int, b: int, x: int)
    requires a >= 0 && b >= 0
    ensures Mul(a, Mul(b, x)) == Mul(b, Mul(a, x))
  {
    MulAssoc(a, b, x);
    MulAssoc(b, a, x);
    MulComm(a, b);
  }

  lemma Reorder1(W: int, H: int, I: int, O: int)
    requires W >= 0 && H >= 0 && I >= 0 && O >= 0
    ensures Mul(I, Mul(W, Mul(H, O))) == Mul(W, Mul(H, Mul(I, O)))
  {
    MulSwap(I, W, Mul(H, O));
    MulSwap(I, H, O);
  }

  lemma Reorder2(W: int, H: int, I: int, O: int)
    requires W >= 0 && H >= 0 && I >= 0 && O >= 0
    ensures Mul(I, Mul(H, Mul(W, O))) == Mul(W, Mul(H, Mul(I, O)))
  {
    MulSwap(I, H, Mul(W, O));
    MulSwap(I, W, O);
    MulSwap(H, W, Mul(I, O));
  }

  lemma Reorder3(W: int, H: int, I: int, O: int)
    requires W >= 0 && H >= 0 && I >= 0 && O >= 0
    ensures Mul(O, Mul(I, Mul(W, H))) == Mul(W, Mul(H, Mul(I, O)))
  {
    MulSwap(I, W, H);
    MulNonNeg(I, H);
    MulSwap(O, W, Mul(I, H));
    MulSwap(O, I, H);
    MulComm(O, H);
    MulSwap(I, H, O);
  }

  /** The extent of each layout's numbering is the tensor's `totalCount`. */
  lemma Volumes(s: Shape)
    requires ValidShape(s)
    ensures Mul(s.inputChannels, Mul(s.width, Mul(s.height, s.outputChannels))) == TotalCount(s)
    ensures Mul(s.inputChannels, Mul(s.height, Mul(s.width, s.outputChannels))) == TotalCount(s)
    ensures Mul(s.outputChannels, Mul(s.inputChannels, Mul(s.width, s.height))) == TotalCount(s)
    ensures TotalCount(s) >= 0
  {
    TotalCountMul(s);
    Reorder1(s.width, s.height, s.inputChannels, s.outputChannels);
    Reorder2(s.width, s.height, s.inputChannels, s.outputChannels);
    Reorder3(s.width, s.height, s.inputChannels, s.outputChannels);
  }

  lemma RankBound(s: Shape, o: int, h: int, w: int, i: int)
    requires InRange(s, o, h, w, i)
    ensures 0 <= OHWI(s, o, h, w, i) < TotalCount(s)
    ensures 0 <= OWHI(s, o, h, w, i) < TotalCount(s)
    ensures 0 <= HWIO(s, o, h, w, i) < TotalCount(s)
  {
    Volumes(s);
    var W, H, I, O := s.width, s.height, s.inputChannels, s.outputChannels;
    Index4Bound(i, I, w, W, h, H, o, O);
    Index4Bound(i, I, h, H, w, W, o, O);
    Index4Bound(o, O, i, I, w, W, h, H);
  }

  /** Distinct tuples have distinct ranks, targets and sources. */
  lemma TupleInjective(layout: Layout, s: Shape, o: int, h: int, w: int, i: int, o': int, h': int, w': int, i': int)
    requires InRange(s, o, h, w, i) && InRange(s, o', h', w', i')
    ensures OHWI(s, o, h, w, i) == OHWI(s, o', h', w', i') ==> o == o' && h == h' && w == w' && i == i'
    ensures Target(layout, s, o, h, w, i) == Target(layout, s, o', h', w', i') ==> o == o' && h == h' && w == w' && i == i'
    ensures HWIO(s, o, h, w, i) == HWIO(s, o', h', w', i') ==> o == o' && h == h' && w == w' && i == i'
  {
    var W, H, I, O := s.width, s.height, s.inputChannels, s.outputChannels;
    if OHWI(s, o, h, w, i) == OHWI(s, o', h', w', i') {
      Index4Injective(i, w, h, o, i', w', h', o', I, W, H);
    }
    if OWHI(s, o, h, w, i) == OWHI(s, o', h', w', i') {
      Index4Injective(i, h, w, o, i', h', w', o', I, H, W);
    }
    if HWIO(s, o, h, w, i) == HWIO(s, o', h', w', i') {
      Index4Injective(o, i, w, h, o', i', w', h', O, I, W);
    }
  }

  /** The target position of each layout is a bijection from the in-range tuples onto `[0, totalCount)`,
      and so is the source position: the output is a rearrangement of the input. */
  lemma TargetBijective(layout: Layout, s: Shape, k: int) returns (o: int, h: int, w: int, i: int)
    requires ValidShape(s) && 0 <= k < TotalCount(s)
    ensures InRange(s, o, h, w, i) && Target(layout, s, o, h, w, i) == k
    ensures forall o', h', w', i' :: InRange(s, o', h', w', i') && Target(layout, s, o', h', w', i') == k ==>
      o' == o && h' == h && w' == w && i' == i
  {
    Volumes(s);
    var W, H, I, O := s.width, s.height, s.inputChannels, s.outputChannels;
    NonEmpty(s);
    if layout == ToOHWI {
      i, w, h, o := Index4Onto(k, I, W, H, O);
    } else {
      i, h, w, o := Index4Onto(k, I, H, W, O);
    }
    forall o', h', w', i' | InRange(s, o', h', w', i') && Target(layout, s, o', h', w', i') == k
      ensures o' == o && h' == h && w' == w && i' == i
    {
      TupleInjective(layout, s, o, h, w, i, o', h', w', i');
    }
  }

  lemma SourceBijective(s: Shape, k: int) returns (o: int, h: int, w: int, i: int)
    requires ValidShape(s) && 0 <= k < TotalCount(s)
    ensures InRange(s, o, h, w, i) && HWIO(s, o, h, w, i) == k
  {
    Volumes(s);
    NonEmpty(s);
    o, i, w, h := Index4Onto(k, s.outputChannels, s.inputChannels, s.width, s.height);
  }

  lemma NonEmpty(s: Shape)
    requires ValidShape(s) && TotalCount(s) > 0
    ensures s.width > 0 && s.height > 0 && s.inputChannels > 0 && s.outputChannels > 0
  {
    TotalCountMul(s);
    var W, H, I, O := s.width, s.height, s.inputChannels, s.outputChannels;
    if H == 0 || I == 0 || O == 0 {
      if O == 0 { MulZeroRight(I); }
      if I == 0 || O == 0 { MulZeroRight(H); }
      MulZeroRight(W);
      assert false;
    }
  }

  lemma {:induction false} MulZeroRight(A: int)
    ensures Mul(A, 0) == 0
    decreases A
  {
    if A > 0 {
      MulZeroRight(A - 1);
    }
  }

  // The loops.

  /** One copy extends the copied prefix of the loop order by one tuple. */
  lemma CopyStep<T>(layout: Layout, s: Shape, weights: seq<T>, t: seq<T>, o: int, h: int, w: int, i: int)
    requires InRange(s, o, h, w, i) && |t| == TotalCount(s) && |weights| >= TotalCount(s)
    requires Copied(layout, s, weights, t, OHWI(s, o, h, w, i))
    ensures RankBoundsHold(layout, s, o, h, w, i)
    ensures Copied(layout, s, weights, t[Target(layout, s, o, h, w, i) := weights[HWIO(s, o, h, w, i)]], OHWI(s, o, h, w, i) + 1)
  {
    RankBound(s, o, h, w, i);
    var n := OHWI(s, o, h, w, i);
    var t' := t[Target(layout, s, o, h, w, i) := weights[HWIO(s, o, h, w, i)]];
    forall o', h', w', i' | InRange(s, o', h', w', i') && OHWI(s, o', h', w', i') < n + 1
      ensures 0 <= Target(layout, s, o', h', w', i') < |t'| && 0 <= HWIO(s, o', h', w', i') < |weights|
      ensures t'[Target(layout, s, o', h', w', i')] == weights[HWIO(s, o', h', w', i')]
    {
      RankBound(s, o', h', w', i');
      TupleInjective(layout, s, o, h, w, i, o', h', w', i');
    }
  }

  ghost predicate RankBoundsHold(layout: Layout, s: Shape, o: int, h: int, w: int, i: int) {
    0 <= Target(layout, s, o, h, w, i) < TotalCount(s) && 0 <= HWIO(s, o, h, w, i) < TotalCount(s)
  }

  lemma CopiedNothing<T>(layout: Layout, s: Shape, weights: seq<T>, t: seq<T>)
    ensures Copied(layout, s, weights, t, 0)
  {
    forall o, h, w, i | InRange(s, o, h, w, i) ensures OHWI(s, o, h, w, i) >= 0 {
      RankBound(s, o, h, w, i);
    }
  }

  /** When every rank below `TotalCount(s)` is copied, every in-range tuple is. */
  lemma CopiedAll<T>(layout: Layout, s: Shape, weights: seq<T>, t: seq<T>)
    requires Copied(layout, s, weights, t, TotalCount(s))
    ensures forall o, h, w, i :: InRange(s, o, h, w, i) ==>
      0 <= Target(layout, s, o, h, w, i) < |t| && 0 <= HWIO(s, o, h, w, i) < |weights| &&
      t[Target(layout, s, o, h, w, i)] == weights[HWIO(s, o, h, w, i)]
  {
    forall o, h, w, i | InRange(s, o, h, w, i)
      ensures 0 <= Target(layout, s, o, h, w, i) < |t| && 0 <= HWIO(s, o, h, w, i) < |weights|
      ensures t[Target(layout, s, o, h, w, i)] == weights[HWIO(s, o, h, w, i)]
    {
      RankBound(s, o, h, w, i);
    }
  }

  lemma RankCarry(s: Shape, o: int, h: int, w: int)
    requires ValidShape(s)
    ensures OHWI(s, o, h, w, s.inputChannels) == OHWI(s, o, h, w + 1, 0)
    ensures OHWI(s, o, h, s.width, 0) == OHWI(s, o, h + 1, 0, 0)
    ensures OHWI(s, o, s.height, 0, 0) == OHWI(s, o + 1, 0, 0, 0)
  {
    var W, H, I := s.width, s.height, s.inputChannels;
    MulSucc(I, w + Mul(W, h + Mul(H, o)));
    MulSucc(W, h + Mul(H, o));
    MulSucc(H, o);
  }

  lemma RankEnd(s: Shape)
    requires ValidShape(s)
    ensures OHWI(s, 0, 0, 0, 0) == 0 && TotalCount(s) >= 0
    ensures OHWI(s, s.outputChannels, 0, 0, 0) == TotalCount(s)
  {
    Volumes(s);
    var W, H, I, O := s.width, s.height, s.inputChannels, s.outputChannels;
    MulIsTimes(H, 0); MulIsTimes(W, 0); MulIsTimes(I, 0);
  }

  /** The four nested loops of `HWIOtoOHWI` / `HWIOtoOWHI`. */
  method TransposeWeights<T>(layout: Layout, weights: seq<T>, s: Shape, zero: T) returns (r: seq<T>)
    requires ValidShape(s) && |weights| >= TotalCount(s)
    ensures |r| == TotalCount(s)
    ensures forall o, h, w, i :: InRange(s, o, h, w, i) ==>
      0 <= Target(layout, s, o, h, w, i) < |r| && 0 <= HWIO(s, o, h, w, i) < |weights| &&
      r[Target(layout, s, o, h, w, i)] == weights[HWIO(s, o, h, w, i)]
  {
    RankEnd(s);
    var transposed := new T[TotalCount(s)](_ => zero);
    ghost var n := 0;
    CopiedNothing(layout, s, weights, transposed[..]);
    for o := 0 to s.outputChannels
      invariant n == OHWI(s, o, 0, 0, 0)
      invariant Copied(layout, s, weights, transposed[..], n)
    {
      for h := 0 to s.height
        invariant n == OHWI(s, o, h, 0, 0)
        invariant Copied(layout, s, weights, transposed[..], n)
      {
        for w := 0 to s.width
          invariant n == OHWI(s, o, h, w, 0)
          invariant Copied(layout, s, weights, transposed[..], n)
        {
          for i := 0 to s.inputChannels
            invariant n == OHWI(s, o, h, w, i)
            invariant Copied(layout, s, weights, transposed[..], n)
          {
            CopyStep(layout, s, weights, transposed[..], o, h, w, i);
            var tIndex := Target(layout, s, o, h, w, i);
            var wIndex := HWIO(s, o, h, w, i);
            transposed[tIndex] := weights[wIndex];
            n := n + 1;
          }
          RankCarry(s, o, h, w);
        }
        RankCarry(s, o, h, s.width);
      }
      RankCarry(s, o, s.height, 0);
    }
    r := transposed[..];
    CopiedAll(layout, s, weights, r);
  }

  /** `HWIOtoOHWI`: `out[i + I*(w + W*(h + H*o))] = in[o + O*(i + I*(w + W*h))]`. */
  method HWIOtoOHWI<T>(weights: seq<T>, s: Shape, zero: T) returns (r: seq<T>)
    requires ValidShape(s) && |weights| >= TotalCount(s)
    ensures |r| == TotalCount(s)
    ensures forall o, h, w, i :: InRange(s, o, h, w, i) ==>
      0 <= OHWI(s, o, h, w, i) < |r| && 0 <= HWIO(s, o, h, w, i) < |weights| &&
      r[OHWI(s, o, h, w, i)] == weights[HWIO(s, o, h, w, i)]
  {
    r := TransposeWeights(ToOHWI, weights, s, zero);
  }

  /** `HWIOtoOWHI`: `out[i + I*(h + H*(w + W*o))] = in[o + O*(i + I*(w + W*h))]`. */
  method HWIOtoOWHI<T>(weights: seq<T>, s: Shape, zero: T) returns (r: seq<T>)
    requires ValidShape(s) && |weights| >= TotalCount(s)
    ensures |r| == TotalCount(s)
    ensures forall o, h, w, i :: InRange(s, o, h, w, i) ==>
      0 <= OWHI(s, o, h, w, i) < |r| && 0 <= HWIO(s, o, h, w, i) < |weights| &&
      r[OWHI(s, o, h, w, i)] == weights[HWIO(s, o, h, w, i)]
  {
    r := TransposeWeights(ToOWHI, weights, s, zero);
  }
}
