/** Sequence helpers shared by every page: optional values, the `reduce`,
    `filter` and `sort` idioms the pages apply to fetched rows, and the
    reference definitions their results are proved against. */
module Common {

  datatype Option<+T> = None | Some(value: T)

  /** JavaScript's `x || 0` on a possibly missing counter. */
  function OrZero(x: Option<int>): int {
    match x
    case None => 0
    case Some(v) => v
  }

  // ---------------------------------------------------------------------
  // Sums: `reduce((sum, x) => sum + f(x), acc)` and its reference.

  /** Reference definition of the sum of `f` over `s`. */
  function Sum<T>(s: seq<T>, f: T -> int): int {
    if s == [] then 0 else f(s[0]) + Sum(s[1..], f)
  }

  /** The left fold that `Array.prototype.reduce` performs. */
  function FoldSum<T>(acc: int, s: seq<T>, f: T -> int): int
    decreases s
  {
    if s == [] then acc else FoldSum(acc + f(s[0]), s[1..], f)
  }

  lemma {:induction false} FoldSumIsSum<T>(acc: int, s: seq<T>, f: T -> int)
    decreases s
    ensures FoldSum(acc, s, f) == acc + Sum(s, f)
  {
    if s != [] {
      FoldSumIsSum(acc + f(s[0]), s[1..], f);
    }
  }

  lemma {:induction false} SumAppend<T>(a: seq<T>, b: seq<T>, f: T -> int)
    ensures Sum(a + b, f) == Sum(a, f) + Sum(b, f)
  {
    if a == [] {
      assert a + b == b;
    } else {
      assert (a + b)[1..] == a[1..] + b;
      SumAppend(a[1..], b, f);
    }
  }

  // ---------------------------------------------------------------------
  // Filtering and counting.

  /** Reference count of the elements satisfying `p`. */
  function Count<T>(s: seq<T>, p: T -> bool): nat {
    if s == [] then 0 else (if p(s[0]) then 1 else 0) + Count(s[1..], p)
  }

  /** `Array.prototype.filter`: the elements satisfying `p`, in order. Each
      value occurs as often as in `s` when it satisfies `p`, else never. */
  function Filter<T(!new)>(s: seq<T>, p: T -> bool): (r: seq<T>)
    ensures |r| == Count(s, p) && |r| <= |s|
    ensures forall x :: multiset(r)[x] == if p(x) then multiset(s)[x] else 0
    ensures forall x :: x in r <==> x in s && p(x)
  {
    if s == [] then []
    else
      var rest := Filter(s[1..], p);
      assert s == [s[0]] + s[1..];
      if p(s[0]) then [s[0]] + rest else rest
  }

  lemma {:induction false} FilterAppend<T(!new)>(a: seq<T>, b: seq<T>, p: T -> bool)
    ensures Filter(a + b, p) == Filter(a, p) + Filter(b, p)
  {
    if a == [] {
      assert a + b == b;
    } else {
      assert (a + b)[1..] == a[1..] + b;
      FilterAppend(a[1..], b, p);
    }
  }

  /** Filtering keeps a list whose every element passes. */
  lemma {:induction false} FilterAll<T(!new)>(s: seq<T>, p: T -> bool)
    requires forall x :: x in s ==> p(x)
    ensures Filter(s, p) == s
  {
    if s != [] {
      assert s == [s[0]] + s[1..];
      FilterAll(s[1..], p);
    }
  }

  /** `s.filter(x => key(x) === k)`, the shape of a `.eq(column, k)` query. */
  function Where<T(!new), K(==)>(s: seq<T>, key: T -> K, k: K): (r: seq<T>)
    ensures forall x :: multiset(r)[x] == if key(x) == k then multiset(s)[x] else 0
    ensures forall x :: x in r ==> key(x) == k
  {
    if s == [] then []
    else
      var rest := Where(s[1..], key, k);
      assert s == [s[0]] + s[1..];
      if key(s[0]) == k then [s[0]] + rest else rest
  }

  /** `s.filter(x => key(x) !== k)`: what a `.delete().eq(column, k)` leaves. */
  function WhereNot<T(!new), K(==)>(s: seq<T>, key: T -> K, k: K): (r: seq<T>)
    ensures forall x :: multiset(r)[x] == if key(x) != k then multiset(s)[x] else 0
    ensures forall x :: x in r ==> key(x) != k
  {
    if s == [] then []
    else
      var rest := WhereNot(s[1..], key, k);
      assert s == [s[0]] + s[1..];
      if key(s[0]) != k then [s[0]] + rest else rest
  }

  /** `Array.prototype.map`. */
  function Map<T, U>(s: seq<T>, f: T -> U): (r: seq<U>)
    ensures |r| == |s|
    ensures forall i :: 0 <= i < |s| ==> r[i] == f(s[i])
  {
    seq(|s|, i requires 0 <= i < |s| => f(s[i]))
  }

  /** `s.filter(y => y !== x)`: every occurrence of `x` removed. */
  function RemoveAll<T(==,!new)>(s: seq<T>, x: T): (r: seq<T>)
    ensures x !in r
    ensures forall y :: y != x ==> multiset(r)[y] == multiset(s)[y]
  {
    if s == [] then []
    else
      var rest := RemoveAll(s[1..], x);
      assert s == [s[0]] + s[1..];
      if s[0] == x then rest else [s[0]] + rest
  }

  lemma {:induction false} RemoveAllAppend<T(!new)>(a: seq<T>, b: seq<T>, x: T)
    ensures RemoveAll(a + b, x) == RemoveAll(a, x) + RemoveAll(b, x)
  {
    if a == [] {
      assert a + b == b;
    } else {
      assert (a + b)[1..] == a[1..] + b;
      RemoveAllAppend(a[1..], b, x);
    }
  }

  lemma {:induction false} RemoveAbsent<T(!new)>(s: seq<T>, x: T)
    requires x !in s
    ensures RemoveAll(s, x) == s
  {
    if s != [] {
      assert x !in s[1..];
      RemoveAbsent(s[1..], x);
    }
  }

  /** No value occurs twice. */
  ghost predicate NoDuplicates<T(!new)>(s: seq<T>) {
    forall x :: multiset(s)[x] <= 1
  }

  /** `s.slice(0, n)`. */
  function Take<T>(s: seq<T>, n: nat): (r: seq<T>)
    ensures |r| == if n < |s| then n else |s|
    ensures r == s[..|r|]
  {
    if n < |s| then s[..n] else s
  }

  // ---------------------------------------------------------------------
  // Sorting descending by an integer key, as `sort((a, b) => key(b) - key(a))`.

  ghost predicate NonIncreasing<T>(s: seq<T>, key: T -> int) {
    forall i, j :: 0 <= i < j < |s| ==> key(s[i]) >= key(s[j])
  }

  /** A head no smaller than the first key keeps a list non-increasing. */
  lemma HeadOnNonIncreasing<T>(h: T, s: seq<T>, key: T -> int)
    requires NonIncreasing(s, key)
    requires s != [] ==> key(h) >= key(s[0])
    ensures NonIncreasing([h] + s, key)
  {
    var r := [h] + s;
    forall i, j | 0 <= i < j < |r|
      ensures key(r[i]) >= key(r[j])
    {
      if i > 0 {
        assert r[i] == s[i - 1] && r[j] == s[j - 1];
      } else {
        assert r[j] == s[j - 1];
      }
    }
  }

  /** Place `x` before the first element whose key does not exceed its own. */
  function InsertDesc<T>(x: T, s: seq<T>, key: T -> int): (r: seq<T>)
    ensures |r| == |s| + 1
  {
    if s == [] then [x]
    else if key(x) >= key(s[0]) then [x] + s
    else [s[0]] + InsertDesc(x, s[1..], key)
  }

  lemma {:induction false} InsertDescPermutes<T>(x: T, s: seq<T>, key: T -> int)
    ensures multiset(InsertDesc(x, s, key)) == multiset(s) + multiset{x}
  {
    if s != [] && key(x) < key(s[0]) {
      var rest := InsertDesc(x, s[1..], key);
      InsertDescPermutes(x, s[1..], key);
      calc {
        multiset(InsertDesc(x, s, key));
        multiset([s[0]] + rest);
        multiset{s[0]} + multiset(rest);
        multiset{s[0]} + multiset(s[1..]) + multiset{x};
        { assert s == [s[0]] + s[1..]; }
        multiset(s) + multiset{x};
      }
    }
  }

  /** Inserting into a non-increasing list keeps it non-increasing. */
  lemma {:induction false} InsertDescSorted<T>(x: T, s: seq<T>, key: T -> int)
    requires NonIncreasing(s, key)
    ensures NonIncreasing(InsertDesc(x, s, key), key)
    ensures InsertDesc(x, s, key)[0] == x || (s != [] && InsertDesc(x, s, key)[0] == s[0])
  {
    if s == [] {
    } else if key(x) >= key(s[0]) {
      HeadOnNonIncreasing(x, s, key);
    } else {
      var rest := InsertDesc(x, s[1..], key);
      InsertDescSorted(x, s[1..], key);
      assert key(s[0]) >= key(rest[0]) by {
        if |s| > 1 {
          assert key(s[0]) >= key(s[1]);
        }
      }
      HeadOnNonIncreasing(s[0], rest, key);
    }
  }

  /** `Where` on a list with a known head. */
  lemma WhereCons<T(!new)>(h: T, t: seq<T>, key: T -> int, k: int)
    ensures Where([h] + t, key, k) == (if key(h) == k then [h] else []) + Where(t, key, k)
  {
    assert ([h] + t)[0] == h && ([h] + t)[1..] == t;
  }

  /** Inserting `x` keeps the relative order of the elements of each key:
      `x` only passes elements whose key is strictly larger than its own. */
  lemma {:induction false} InsertDescStable<T(!new)>(x: T, s: seq<T>, key: T -> int, k: int)
    ensures Where(InsertDesc(x, s, key), key, k) == (if key(x) == k then [x] else []) + Where(s, key, k)
  {
    if s == [] {
      WhereCons(x, s, key, k);
    } else if key(x) >= key(s[0]) {
      WhereCons(x, s, key, k);
    } else {
      var rest := InsertDesc(x, s[1..], key);
      InsertDescStable(x, s[1..], key, k);
      WhereCons(s[0], rest, key, k);
      WhereCons(s[0], s[1..], key, k);
      assert s == [s[0]] + s[1..];
    }
  }

  /** The sort is stable, as `Array.prototype.sort` must be: the elements of
      any one key come out in the order they went in. */
  lemma {:induction false} SortDescStable<T(!new)>(s: seq<T>, key: T -> int, k: int)
    ensures Where(SortDesc(s, key), key, k) == Where(s, key, k)
  {
    if s != [] {
      SortDescStable(s[1..], key, k);
      InsertDescStable(s[0], SortDesc(s[1..], key), key, k);
      WhereCons(s[0], s[1..], key, k);
      assert s == [s[0]] + s[1..];
    }
  }

  /** A stable insertion sort; its result is a permutation of `s` with
      non-increasing keys. */
  function SortDesc<T>(s: seq<T>, key: T -> int): (r: seq<T>)
    ensures multiset(r) == multiset(s)
    ensures |r| == |s|
    ensures NonIncreasing(r, key)
  {
    if s == [] then []
    else
      var rest := SortDesc(s[1..], key);
      InsertDescPermutes(s[0], rest, key);
      InsertDescSorted(s[0], rest, key);
      assert s == [s[0]] + s[1..];
      InsertDesc(s[0], rest, key)
  }
}
