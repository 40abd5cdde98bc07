/** Swift's integer division and remainder truncate toward zero, whereas Dafny's
    `/` and `%` are Euclidean. Every formula of the source that may see a
    negative operand goes through these two functions. */
module SwiftInt {

  /** Swift `a / b` on `Int`: the quotient rounded toward zero. */
  function Div(a: int, b: int): int
    requires b != 0
  {
    if a >= 0 && b > 0 then a / b
    else if a >= 0 then -(a / (-b))
    else if b > 0 then -((-a) / b)
    else (-a) / (-b)
  }

  /** Swift `a % b` on `Int`: `a - Div(a, b) * b`, which takes the sign of `a`
      and is smaller than `b` in magnitude. */
  function Rem(a: int, b: int): (r: int)
    requires b != 0
    ensures a == Div(a, b) * b + r
    ensures a >= 0 ==> 0 <= r < Abs(b)
    ensures a < 0 ==> -Abs(b) < r <= 0
  {
    DivRemBounds(a, b);
    a - Div(a, b) * b
  }

  function Abs(a: int): int { if a < 0 then -a else a }

  lemma DivRemBounds(a: int, b: int)
    requires b != 0
    ensures a >= 0 ==> 0 <= a - Div(a, b) * b < Abs(b)
    ensures a < 0 ==> -Abs(b) < a - Div(a, b) * b <= 0
  {
    if a >= 0 && b > 0 {
      EuclidPos(a, b);
    } else if a >= 0 {
      EuclidPos(a, -b);
      NegMul(a / (-b), b);
    } else if b > 0 {
      EuclidPos(-a, b);
      NegMul((-a) / b, b);
    } else {
      EuclidPos(-a, -b);
      NegMul((-a) / (-b), -b);
    }
  }

  lemma EuclidPos(n: int, c: int)
    requires n >= 0 && c > 0
    ensures 0 <= n - (n / c) * c < c
  {
    assert n == c * (n / c) + n % c;
  }

  lemma NegMul(q: int, c: int)
    ensures (-q) * c == -(q * c) && q * (-c) == -(q * c)
  {
  }

  function Min(a: int, b: int): int { if a <= b then a else b }

  function Max(a: int, b: int): int { if a >= b then a else b }

  /** Swift's remainder by 4 is zero exactly when the Euclidean one is. */
  lemma RemZeroBy4(a: int)
    ensures Rem(a, 4) == 0 <==> a % 4 == 0
  {
  }
}
