/** The stable sort that JavaScript's Array.prototype.sort and SQL's ORDER BY stand for,
    and sums over sequences that do not depend on the order of their elements. */
module Sorting {

  ghost predicate TotalPreorder<T(!new)>(le: (T, T) -> bool) {
    && (forall x, y :: le(x, y) || le(y, x))
    && (forall x, y, z :: le(x, y) && le(y, z) ==> le(x, z))
  }

  ghost predicate SortedBy<T>(xs: seq<T>, le: (T, T) -> bool) {
    forall i, j :: 0 <= i < j < |xs| ==> le(xs[i], xs[j])
  }

  /** Puts x before the first element it does not exceed, so equal elements keep their order. */
  function Insert<T>(x: T, xs: seq<T>, le: (T, T) -> bool): seq<T> {
    if xs == [] then [x]
    else if le(x, xs[0]) then [x] + xs
    else [xs[0]] + Insert(x, xs[1..], le)
  }

  function Sort<T>(xs: seq<T>, le: (T, T) -> bool): seq<T> {
    if xs == [] then [] else Insert(xs[0], Sort(xs[1..], le), le)
  }

  lemma {:induction false} InsertPermutes<T>(x: T, xs: seq<T>, le: (T, T) -> bool)
    ensures multiset(Insert(x, xs, le)) == multiset{x} + multiset(xs)
  {
    if xs != [] && !le(x, xs[0]) {
      InsertPermutes(x, xs[1..], le);
      assert xs == [xs[0]] + xs[1..];
    }
  }

  lemma {:induction false} SortPermutes<T>(xs: seq<T>, le: (T, T) -> bool)
    ensures multiset(Sort(xs, le)) == multiset(xs)
    ensures |Sort(xs, le)| == |xs|
  {
    if xs != [] {
      SortPermutes(xs[1..], le);
      InsertPermutes(xs[0], Sort(xs[1..], le), le);
      assert xs == [xs[0]] + xs[1..];
    }
    assert |multiset(Sort(xs, le))| == |Sort(xs, le)|;
  }

  lemma {:induction false} InsertSorts<T(!new)>(x: T, xs: seq<T>, le: (T, T) -> bool)
    requires TotalPreorder(le) && SortedBy(xs, le)
    ensures SortedBy(Insert(x, xs, le), le)
  {
    if xs != [] {
      if le(x, xs[0]) {
        forall j | 0 <= j < |xs| ensures le(x, xs[j]) {
          assert j == 0 || le(xs[0], xs[j]);
        }
      } else {
        var rest := Insert(x, xs[1..], le);
        InsertSorts(x, xs[1..], le);
        InsertKeepsElements(x, xs[1..], le);
        forall j | 0 <= j < |rest| ensures le(xs[0], rest[j]) {
          assert rest[j] in rest;
          assert rest[j] == x || rest[j] in xs[1..];
        }
      }
    }
  }

  lemma {:induction false} SortSorts<T(!new)>(xs: seq<T>, le: (T, T) -> bool)
    requires TotalPreorder(le)
    ensures SortedBy(Sort(xs, le), le)
  {
    if xs != [] {
      SortSorts(xs[1..], le);
      InsertSorts(xs[0], Sort(xs[1..], le), le);
    }
  }

  lemma HeadsAgree<T(!new)>(xs: seq<T>, ys: seq<T>, le: (T, T) -> bool)
    requires TotalPreorder(le) && SortedBy(xs, le) && SortedBy(ys, le)
    requires xs != [] && ys != [] && multiset(xs) == multiset(ys)
    ensures ys[0] in xs && le(xs[0], ys[0]) && le(ys[0], xs[0])
  {
    assert xs[0] in multiset(ys) && ys[0] in multiset(xs);
    var i :| 0 <= i < |ys| && ys[i] == xs[0];
    var j :| 0 <= j < |xs| && xs[j] == ys[0];
  }

  /** Two sorted arrangements of the same elements are equal when the order tells
      distinct elements apart. */
  lemma {:induction false} SortedArrangementIsUnique<T(!new)>(xs: seq<T>, ys: seq<T>, le: (T, T) -> bool)
    requires TotalPreorder(le) && SortedBy(xs, le) && SortedBy(ys, le)
    requires multiset(xs) == multiset(ys)
    requires forall i, j :: 0 <= i < |xs| && 0 <= j < |xs| && le(xs[i], xs[j]) && le(xs[j], xs[i]) ==> xs[i] == xs[j]
    ensures xs == ys
  {
    assert |xs| == |multiset(xs)| == |multiset(ys)| == |ys|;
    if xs != [] {
      HeadsAgree(xs, ys, le);
      assert xs == [xs[0]] + xs[1..] && ys == [ys[0]] + ys[1..];
      assert multiset(xs[1..]) == multiset(xs) - multiset{xs[0]};
      assert multiset(ys[1..]) == multiset(ys) - multiset{ys[0]};
      SortedArrangementIsUnique(xs[1..], ys[1..], le);
    }
  }

  function Sum<T>(xs: seq<T>, weight: T -> int): int {
    if xs == [] then 0 else weight(xs[0]) + Sum(xs[1..], weight)
  }

  lemma {:induction false} SumSplits<T>(xs: seq<T>, ys: seq<T>, weight: T -> int)
    ensures Sum(xs + ys, weight) == Sum(xs, weight) + Sum(ys, weight)
  {
    if xs == [] {
      assert xs + ys == ys;
    } else {
      assert (xs + ys)[1..] == xs[1..] + ys;
      SumSplits(xs[1..], ys, weight);
    }
  }

  lemma MultisetWithoutOne<T>(xs: seq<T>, k: nat)
    requires k < |xs|
    ensures multiset(xs[..k] + xs[k + 1..]) == multiset(xs) - multiset{xs[k]}
  {
    assert xs == xs[..k] + [xs[k]] + xs[k + 1..];
  }

  lemma SumWithoutOne<T>(xs: seq<T>, k: nat, weight: T -> int)
    requires k < |xs|
    ensures Sum(xs, weight) == weight(xs[k]) + Sum(xs[..k] + xs[k + 1..], weight)
  {
    assert xs[..k] + xs[k..] == xs && xs[k..][1..] == xs[k + 1..];
    SumSplits(xs[..k], xs[k + 1..], weight);
    SumSplits(xs[..k], xs[k..], weight);
  }

  lemma {:induction false} SumIgnoresOrder<T>(xs: seq<T>, ys: seq<T>, weight: T -> int)
    requires multiset(xs) == multiset(ys)
    ensures Sum(xs, weight) == Sum(ys, weight)
  {
    assert |xs| == |multiset(xs)| == |multiset(ys)| == |ys|;
    if xs != [] {
      var k :| 0 <= k < |ys| && ys[k] == xs[0] by { assert xs[0] in multiset(xs); }
      MultisetWithoutOne(xs, 0);
      MultisetWithoutOne(ys, k);
      SumWithoutOne(ys, k, weight);
      assert xs[..0] + xs[1..] == xs[1..];
      SumIgnoresOrder(xs[1..], ys[..k] + ys[k + 1..], weight);
    }
  }

  // ----- what sorting keeps

  lemma {:induction false} InsertKeepsElements<T>(x: T, xs: seq<T>, le: (T, T) -> bool)
    ensures |Insert(x, xs, le)| == |xs| + 1
    ensures forall y :: y in Insert(x, xs, le) <==> y == x || y in xs
  {
    if xs != [] && !le(x, xs[0]) {
      InsertKeepsElements(x, xs[1..], le);
    }
  }

  lemma {:induction false} SortKeepsElements<T>(xs: seq<T>, le: (T, T) -> bool)
    ensures |Sort(xs, le)| == |xs|
    ensures forall y :: y in Sort(xs, le) <==> y in xs
  {
    if xs != [] {
      SortKeepsElements(xs[1..], le);
      InsertKeepsElements(xs[0], Sort(xs[1..], le), le);
    }
  }

  lemma {:induction false} InsertKeepsSum<T>(x: T, xs: seq<T>, le: (T, T) -> bool, weight: T -> int)
    ensures Sum(Insert(x, xs, le), weight) == weight(x) + Sum(xs, weight)
  {
    if xs != [] && !le(x, xs[0]) {
      InsertKeepsSum(x, xs[1..], le, weight);
    }
  }

  lemma {:induction false} SortKeepsSum<T>(xs: seq<T>, le: (T, T) -> bool, weight: T -> int)
    ensures Sum(Sort(xs, le), weight) == Sum(xs, weight)
  {
    if xs != [] {
      SortKeepsSum(xs[1..], le, weight);
      InsertKeepsSum(xs[0], Sort(xs[1..], le), le, weight);
    }
  }

  // ----- one and two elements

  lemma Singleton<T>(x: T, le: (T, T) -> bool, weight: T -> int)
    ensures Sort([x], le) == [x] && Sum([x], weight) == weight(x)
  {
    assert [x][1..] == [];
    assert Sort([x][1..], le) == [];
    assert Sum([x][1..], weight) == 0;
  }

  lemma Pair<T>(x: T, y: T, le: (T, T) -> bool, weight: T -> int)
    requires le(x, y)
    ensures Sort([x, y], le) == [x, y] && Sum([x, y], weight) == weight(x) + weight(y)
  {
    assert [x, y][1..] == [y];
    Singleton(y, le, weight);
  }

  // ----- keys

  predicate DistinctBy<T, K(==)>(xs: seq<T>, key: T -> K) {
    forall i, j :: 0 <= i < j < |xs| ==> key(xs[i]) != key(xs[j])
  }

  function Map<T, K>(xs: seq<T>, f: T -> K): (ys: seq<K>)
    ensures |ys| == |xs|
    ensures forall i :: 0 <= i < |xs| ==> ys[i] == f(xs[i])
  {
    seq(|xs|, i requires 0 <= i < |xs| => f(xs[i]))
  }

  lemma ConsKeepsDistinct<T(!new), K>(x: T, xs: seq<T>, key: T -> K)
    requires DistinctBy(xs, key) && forall y <- xs :: key(y) != key(x)
    ensures DistinctBy([x] + xs, key)
  {
    assert forall i :: 0 <= i < |xs| ==> xs[i] in xs;
  }

  lemma {:induction false} InsertKeepsDistinct<T(!new), K>(x: T, xs: seq<T>, le: (T, T) -> bool, key: T -> K)
    requires DistinctBy(xs, key) && forall y <- xs :: key(y) != key(x)
    ensures DistinctBy(Insert(x, xs, le), key)
  {
    if xs != [] {
      if le(x, xs[0]) {
        ConsKeepsDistinct(x, xs, key);
      } else {
        var rest := Insert(x, xs[1..], le);
        InsertKeepsDistinct(x, xs[1..], le, key);
        InsertKeepsElements(x, xs[1..], le);
        forall y | y in rest ensures key(y) != key(xs[0]) {
          assert y == x || y in xs[1..];
        }
        ConsKeepsDistinct(xs[0], rest, key);
      }
    }
  }

  lemma {:induction false} SortKeepsDistinct<T(!new), K>(xs: seq<T>, le: (T, T) -> bool, key: T -> K)
    requires DistinctBy(xs, key)
    ensures DistinctBy(Sort(xs, le), key)
  {
    if xs != [] {
      var rest := Sort(xs[1..], le);
      SortKeepsDistinct(xs[1..], le, key);
      SortKeepsElements(xs[1..], le);
      forall y | y in rest ensures key(y) != key(xs[0]) {
        assert y in xs[1..];
      }
      InsertKeepsDistinct(xs[0], rest, le, key);
    }
  }

  // ----- mapped sequences

  lemma {:induction false} SumOfMap<T, K>(xs: seq<T>, f: T -> K, weight: K -> int, weightBefore: T -> int)
    requires forall x <- xs :: weight(f(x)) == weightBefore(x)
    ensures Sum(Map(xs, f), weight) == Sum(xs, weightBefore)
  {
    if xs != [] {
      SumOfMap(xs[1..], f, weight, weightBefore);
      assert Map(xs, f)[1..] == Map(xs[1..], f);
    }
  }

  lemma {:induction false} InsertMaps<T, K>(x: T, xs: seq<T>, f: T -> K, le: (T, T) -> bool, leMapped: (K, K) -> bool)
    requires forall y <- xs :: le(x, y) == leMapped(f(x), f(y))
    ensures Map(Insert(x, xs, le), f) == Insert(f(x), Map(xs, f), leMapped)
  {
    if xs != [] && !le(x, xs[0]) {
      InsertMaps(x, xs[1..], f, le, leMapped);
      assert Map(xs, f)[1..] == Map(xs[1..], f);
    }
  }

  /** Sorting by a key sorts the keys. */
  lemma {:induction false} SortMaps<T(!new), K>(xs: seq<T>, f: T -> K, le: (T, T) -> bool, leMapped: (K, K) -> bool)
    requires forall x <- xs, y <- xs :: le(x, y) == leMapped(f(x), f(y))
    ensures Map(Sort(xs, le), f) == Sort(Map(xs, f), leMapped)
  {
    if xs != [] {
      SortMaps(xs[1..], f, le, leMapped);
      var rest := Sort(xs[1..], le);
      SortKeepsElements(xs[1..], le);
      forall y | y in rest ensures le(xs[0], y) == leMapped(f(xs[0]), f(y)) {
        assert y in xs[1..];
      }
      InsertMaps(xs[0], rest, f, le, leMapped);
      assert Map(xs, f)[1..] == Map(xs[1..], f);
    }
  }

  lemma {:induction false} SumOfUpdate<T>(xs: seq<T>, i: nat, x: T, weight: T -> int)
    requires i < |xs|
    ensures Sum(xs[i := x], weight) == Sum(xs, weight) - weight(xs[i]) + weight(x)
  {
    if i == 0 {
      assert xs[i := x][1..] == xs[1..];
    } else {
      SumOfUpdate(xs[1..], i - 1, x, weight);
      assert xs[i := x][1..] == xs[1..][i - 1 := x];
    }
  }

  lemma {:induction false} SumPointwise<S, T>(xs: seq<S>, ys: seq<T>, weight: S -> int, weightOther: T -> int)
    requires |xs| == |ys|
    requires forall i :: 0 <= i < |xs| ==> weight(xs[i]) == weightOther(ys[i])
    ensures Sum(xs, weight) == Sum(ys, weightOther)
  {
    if xs != [] {
      SumPointwise(xs[1..], ys[1..], weight, weightOther);
    }
  }
}
