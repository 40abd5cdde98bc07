/** Sequence helpers shared by the graph model: first-occurrence search and
    removal, as done by Swift's `index(where:)` followed by `remove(at:)`. */
module SeqUtil {

  predicate NoDup<T(==)>(s: seq<T>) {
    forall i, j :: 0 <= i < j < |s| ==> s[i] != s[j]
  }

  /** Index of the first occurrence of `x` in `s`. */
  function FirstIndex<T(==)>(s: seq<T>, x: T): (i: nat)
    requires x in s
    ensures i < |s| && s[i] == x && x !in s[..i]
  {
    if s[0] == x then 0 else 1 + FirstIndex(s[1..], x)
  }

  /** `s` without its first occurrence of `x`; `s` itself when `x` is absent. */
  function RemoveFirst<T(==)>(s: seq<T>, x: T): (r: seq<T>)
    ensures x !in s ==> r == s
    ensures forall y :: y in r ==> y in s
  {
    if s == [] then []
    else
      assert s == [s[0]] + s[1..];
      if s[0] == x then s[1..]
      else [s[0]] + RemoveFirst(s[1..], x)
  }

  /** The entry removed is the first occurrence, and the others keep their order. */
  lemma {:induction false} RemoveFirstAt<T>(s: seq<T>, x: T)
    requires x in s
    ensures RemoveFirst(s, x) == s[..FirstIndex(s, x)] + s[FirstIndex(s, x) + 1..]
  {
    if s[0] != x {
      RemoveFirstAt(s[1..], x);
      var i := FirstIndex(s[1..], x);
      assert s[..i + 1] == [s[0]] + s[1..][..i];
      assert s[i + 2..] == s[1..][i + 1..];
    }
  }

  /** `RemoveFirst` applied `k` times. */
  function RemoveFirstTimes<T(==)>(s: seq<T>, x: T, k: nat): seq<T> {
    if k == 0 then s else RemoveFirst(RemoveFirstTimes(s, x, k - 1), x)
  }

  /** One removal lowers the count of `x` by one when it occurs and leaves every other count alone. */
  lemma {:induction false} RemoveFirstCount<T>(s: seq<T>, x: T, y: T)
    ensures multiset(RemoveFirst(s, x))[y] == if y == x && x in s then multiset(s)[y] - 1 else multiset(s)[y]
  {
    if s != [] {
      assert s == [s[0]] + s[1..];
      if s[0] != x {
        RemoveFirstCount(s[1..], x, y);
        assert RemoveFirst(s, x) == [s[0]] + RemoveFirst(s[1..], x);
      }
    }
  }

  lemma {:induction false} RemoveFirstTimesCount<T>(s: seq<T>, x: T, k: nat, y: T)
    ensures y != x ==> multiset(RemoveFirstTimes(s, x, k))[y] == multiset(s)[y]
    ensures y == x ==> multiset(RemoveFirstTimes(s, x, k))[x] == if multiset(s)[x] >= k then multiset(s)[x] - k else 0
    ensures multiset(RemoveFirstTimes(s, x, k))[y] <= multiset(s)[y]
  {
    if k > 0 {
      RemoveFirstTimesCount(s, x, k - 1, y);
      RemoveFirstTimesStep(s, x, k, y);
    }
  }

  lemma RemoveFirstTimesStep<T>(s: seq<T>, x: T, k: nat, y: T)
    requires k > 0
    ensures multiset(RemoveFirstTimes(s, x, k))[y] ==
      var c := multiset(RemoveFirstTimes(s, x, k - 1))[y];
      if y == x && c > 0 then c - 1 else c
  {
    var r0 := RemoveFirstTimes(s, x, k - 1);
    assert RemoveFirstTimes(s, x, k) == RemoveFirst(r0, x);
    RemoveFirstCount(r0, x, y);
    if y == x && x !in r0 {
      assert multiset(r0)[x] == 0;
    }
  }

  lemma RemoveFirstTimesKeeps<T>(s: seq<T>, x: T, k: nat, y: T)
    requires y != x
    ensures y in RemoveFirstTimes(s, x, k) <==> y in s
  {
    RemoveFirstTimesCount(s, x, k, y);
  }

  lemma RemoveFirstTimesSub<T>(s: seq<T>, x: T, k: nat, y: T)
    ensures y in RemoveFirstTimes(s, x, k) ==> y in s
  {
    RemoveFirstTimesCount(s, x, k, y);
  }

  lemma RemoveFirstTimesEmpty<T>(x: T, k: nat)
    ensures RemoveFirstTimes([], x, k) == []
  {
    RemoveFirstTimesCount([], x, k, x);
    var r := RemoveFirstTimes([], x, k);
    if r != [] {
      RemoveFirstTimesCount([], x, k, r[0]);
    }
  }

  lemma RemoveFirstNoDup<T>(s: seq<T>, x: T)
    requires NoDup(s)
    ensures NoDup(RemoveFirst(s, x)) && x !in RemoveFirst(s, x)
  {
    NoDupCount(s, x);
    forall y ensures multiset(RemoveFirst(s, x))[y] <= multiset(s)[y] {
      RemoveFirstCount(s, x, y);
    }
    NoDupSub(s, RemoveFirst(s, x));
  }

  lemma RemoveFirstTimesNoDup<T>(s: seq<T>, x: T, k: nat)
    requires NoDup(s) && k > 0
    ensures NoDup(RemoveFirstTimes(s, x, k)) && x !in RemoveFirstTimes(s, x, k)
  {
    var r := RemoveFirstTimes(s, x, k);
    NoDupCount(s, x);
    RemoveFirstTimesCount(s, x, k, x);
    forall y ensures multiset(r)[y] <= multiset(s)[y] {
      RemoveFirstTimesCount(s, x, k, y);
    }
    NoDupSub(s, r);
  }

  lemma NoDupCount<T>(s: seq<T>, x: T)
    requires NoDup(s)
    ensures multiset(s)[x] <= 1
  {
    if s != [] {
      assert s == [s[0]] + s[1..];
      assert NoDup(s[1..]);
      NoDupCount(s[1..], x);
      if s[0] == x {
        assert x !in s[1..];
      }
    }
  }

  lemma CountOneNoDup<T>(s: seq<T>)
    requires forall y :: multiset(s)[y] <= 1
    ensures NoDup(s)
  {
    forall i, j | 0 <= i < j < |s| ensures s[i] != s[j] {
      assert s == s[..i] + [s[i]] + s[i + 1..j] + [s[j]] + s[j + 1..];
      assert multiset(s)[s[i]] >= multiset{s[i]}[s[i]] + multiset{s[j]}[s[i]];
    }
  }

  lemma NoDupSub<T>(s: seq<T>, r: seq<T>)
    requires NoDup(s) && forall y :: multiset(r)[y] <= multiset(s)[y]
    ensures NoDup(r)
  {
    forall y ensures multiset(r)[y] <= 1 { NoDupCount(s, y); }
    CountOneNoDup(r);
  }

  lemma NoDupAppend<T>(s: seq<T>, x: T)
    requires NoDup(s) && x !in s
    ensures NoDup(s + [x])
  {
  }
}
