/**
 * Sequence combinators used by the model: the Array.prototype.map/filter of
 * the JavaScript pages and the list comprehensions of the backend, a
 * left-to-right sum (Python's sum(), JavaScript's reduce from 0), offset and
 * limit, and the stable descending sort that both Array.prototype.sort (stable
 * since ES2019) and ORDER BY ... DESC are modelled by.
 */
module Seqs {
  import opened Wrappers

  function Map<T, U>(s: seq<T>, f: T -> U): (r: seq<U>)
    ensures |r| == |s|
    ensures forall i :: 0 <= i < |s| ==> r[i] == f(s[i])
  {
    if s == [] then [] else [f(s[0])] + Map(s[1..], f)
  }

  function Filter<T>(s: seq<T>, p: T -> bool): (r: seq<T>)
    ensures |r| <= |s|
    ensures forall x :: x in r ==> x in s && p(x)
  {
    if s == [] then [] else (if p(s[0]) then [s[0]] else []) + Filter(s[1..], p)
  }

  /** `.filter(item => item !== null)` over the results of a `.map` that
      returned null for the dropped elements. */
  function FilterSome<T>(s: seq<Option<T>>): (r: seq<T>)
    ensures |r| <= |s|
  {
    if s == [] then [] else (if s[0].Some? then [s[0].value] else []) + FilterSome(s[1..])
  }

  /** Filter keeps exactly the elements satisfying p, each as often as in s. */
  lemma {:induction false} FilterMultiset<T>(s: seq<T>, p: T -> bool, x: T)
    ensures multiset(Filter(s, p))[x] == if p(x) then multiset(s)[x] else 0
  {
    if s != [] {
      assert s == [s[0]] + s[1..];
      FilterMultiset(s[1..], p, x);
    }
  }

  lemma {:induction false} FilterAppend<T>(a: seq<T>, b: seq<T>, p: T -> bool)
    ensures Filter(a + b, p) == Filter(a, p) + Filter(b, p)
  {
    if a == [] {
      assert a + b == b;
    } else {
      assert (a + b)[1..] == a[1..] + b;
      FilterAppend(a[1..], b, p);
    }
  }

  /** Filters that agree on the elements select the same elements. */
  lemma {:induction false} FilterExt<T>(s: seq<T>, p: T -> bool, q: T -> bool)
    requires forall x :: x in s ==> p(x) == q(x)
    ensures Filter(s, p) == Filter(s, q)
  {
    if s != [] {
      FilterExt(s[1..], p, q);
    }
  }

  /** A filter that keeps every element is the identity. */
  lemma {:induction false} FilterAll<T>(s: seq<T>, p: T -> bool)
    requires forall x :: x in s ==> p(x)
    ensures Filter(s, p) == s
  {
    if s != [] {
      FilterAll(s[1..], p);
      assert s == [s[0]] + s[1..];
    }
  }

  /** Two filters in a row are one filter by their conjunction. */
  lemma {:induction false} FilterFilter<T>(s: seq<T>, p: T -> bool, q: T -> bool, pq: T -> bool)
    requires forall x :: x in s ==> pq(x) == (p(x) && q(x))
    ensures Filter(Filter(s, p), q) == Filter(s, pq)
  {
    if s != [] {
      FilterFilter(s[1..], p, q, pq);
      var head := if p(s[0]) then [s[0]] else [];
      FilterAppend(head, Filter(s[1..], p), q);
      if p(s[0]) {
        assert head[1..] == [];
      }
    }
  }

  /** Mapping to optional values and dropping the absent ones is mapping the
      elements a predicate keeps. */
  lemma {:induction false} FilterSomeMap<T, U>(s: seq<T>, f: T -> Option<U>, p: T -> bool, g: T -> U)
    requires forall x :: f(x) == if p(x) then Some(g(x)) else None
    ensures FilterSome(Map(s, f)) == Map(Filter(s, p), g)
  {
    if s != [] {
      assert Map(s, f)[1..] == Map(s[1..], f);
      FilterSomeMap(s[1..], f, p, g);
    }
  }

  /** The position of the first element satisfying p: what a query's
      `.first()` finds. */
  function FirstIndex<T>(s: seq<T>, p: T -> bool): (r: Option<nat>)
    ensures r.Some? ==> r.value < |s| && p(s[r.value]) && forall j :: 0 <= j < r.value ==> !p(s[j])
    ensures r.None? ==> forall j :: 0 <= j < |s| ==> !p(s[j])
  {
    if s == [] then None
    else if p(s[0]) then Some(0)
    else match FirstIndex(s[1..], p)
      case None => None
      case Some(i) => Some(i + 1)
  }

  /** s without its element at i. */
  function RemoveAt<T>(s: seq<T>, i: nat): (r: seq<T>)
    requires i < |s|
    ensures |r| == |s| - 1
    ensures forall j :: 0 <= j < i ==> r[j] == s[j]
    ensures forall j :: i <= j < |r| ==> r[j] == s[j + 1]
  {
    s[..i] + s[i + 1..]
  }

  // ---------------------------------------------------------------- sums

  /** Left-to-right sum starting from 0. */
  function SumOf<T>(s: seq<T>, f: T -> real): real
  {
    if s == [] then 0.0 else SumOf(s[..|s| - 1], f) + f(s[|s| - 1])
  }

  lemma {:induction false} SumOfAppend<T>(a: seq<T>, b: seq<T>, f: T -> real)
    ensures SumOf(a + b, f) == SumOf(a, f) + SumOf(b, f)
    decreases |b|
  {
    if b == [] {
      assert a + b == a;
    } else {
      assert (a + b)[..|a + b| - 1] == a + b[..|b| - 1];
      SumOfAppend(a, b[..|b| - 1], f);
    }
  }

  lemma SumOfCons<T>(x: T, s: seq<T>, f: T -> real)
    ensures SumOf([x] + s, f) == f(x) + SumOf(s, f)
  {
    SumOfAppend([x], s, f);
    assert [x][..0] == [];
  }

  lemma {:induction false} SumOfNonNegative<T>(s: seq<T>, f: T -> real)
    requires forall x :: x in s ==> f(x) >= 0.0
    ensures SumOf(s, f) >= 0.0
  {
    if s != [] {
      SumOfNonNegative(s[..|s| - 1], f);
    }
  }

  // ---------------------------------------------------------------- concatenation

  /** f's sequences for the elements of s, one after the other. */
  function FlatMap<T, U>(s: seq<T>, f: T -> seq<U>): seq<U>
  {
    if s == [] then [] else FlatMap(s[..|s| - 1], f) + f(s[|s| - 1])
  }

  /** Concatenation regroups freely. */
  lemma AppendAssoc<T>(a: seq<T>, b: seq<T>, c: seq<T>)
    ensures a + b + c == a + (b + c)
  {
  }

  lemma FlatMapStep<T, U>(s: seq<T>, d: nat, f: T -> seq<U>)
    requires d < |s|
    ensures FlatMap(s[..d + 1], f) == FlatMap(s[..d], f) + f(s[d])
  {
    assert s[..d + 1][..d] == s[..d];
  }

  lemma {:induction false} FlatMapAppend<T, U>(a: seq<T>, b: seq<T>, f: T -> seq<U>)
    ensures FlatMap(a + b, f) == FlatMap(a, f) + FlatMap(b, f)
    decreases |b|
  {
    if b == [] {
      assert a + b == a;
    } else {
      assert (a + b)[..|a + b| - 1] == a + b[..|b| - 1];
      FlatMapAppend(a, b[..|b| - 1], f);
    }
  }

  /** The parts for the elements before j, the part for s[j], then the parts
      for the elements after it. */
  lemma FlatMapSplit<T, U>(s: seq<T>, j: nat, f: T -> seq<U>)
    requires j < |s|
    ensures FlatMap(s, f) == FlatMap(s[..j], f) + f(s[j]) + FlatMap(s[j + 1..], f)
  {
    FlatMapCut(s, j, f);
    FlatMapHead(s[j..], f);
    assert s[j..][1..] == s[j + 1..];
  }

  /** The parts for a prefix, then the parts for the rest. */
  lemma FlatMapCut<T, U>(s: seq<T>, j: nat, f: T -> seq<U>)
    requires j <= |s|
    ensures FlatMap(s, f) == FlatMap(s[..j], f) + FlatMap(s[j..], f)
  {
    assert s[..j] + s[j..] == s;
    FlatMapAppend(s[..j], s[j..], f);
  }

  /** The part for the first element, then the parts for the rest. */
  lemma FlatMapHead<T, U>(s: seq<T>, f: T -> seq<U>)
    requires s != []
    ensures FlatMap(s, f) == f(s[0]) + FlatMap(s[1..], f)
  {
    assert [s[0]] + s[1..] == s;
    FlatMapAppend([s[0]], s[1..], f);
    assert [s[0]][..0] == [];
  }

  // ---------------------------------------------------------------- offset / limit

  /** SQL OFFSET. */
  function Drop<T>(s: seq<T>, n: nat): (r: seq<T>)
    ensures |r| == if n <= |s| then |s| - n else 0
    ensures forall i :: 0 <= i < |r| ==> r[i] == s[n + i]
  {
    if n <= |s| then s[n..] else []
  }

  /** SQL LIMIT. */
  function Take<T>(s: seq<T>, n: nat): (r: seq<T>)
    ensures |r| == if n <= |s| then n else |s|
    ensures forall i :: 0 <= i < |r| ==> r[i] == s[i]
  {
    if n <= |s| then s[..n] else s
  }

  // ---------------------------------------------------------------- stable sort

  /** Adjacent keys never increase. */
  predicate SortedDesc<T>(s: seq<T>, key: T -> int)
  {
    |s| <= 1 || (key(s[0]) >= key(s[1]) && SortedDesc(s[1..], key))
  }

  /** The elements with key k, in order. */
  function WithKey<T>(s: seq<T>, key: T -> int, k: int): seq<T>
  {
    if s == [] then [] else (if key(s[0]) == k then [s[0]] else []) + WithKey(s[1..], key, k)
  }

  /** Inserts x before the first element whose key is not larger, so that x
      precedes the elements of s with an equal key. */
  function InsertDesc<T>(x: T, s: seq<T>, key: T -> int): (r: seq<T>)
    ensures |r| == |s| + 1
    ensures r[0] == x || (s != [] && r[0] == s[0])
  {
    if s == [] || key(s[0]) <= key(x) then [x] + s else [s[0]] + InsertDesc(x, s[1..], key)
  }

  /** A stable sort by descending key: insertion of each element, from the
      last to the first, into the sorted rest. */
  function SortDesc<T>(s: seq<T>, key: T -> int): seq<T>
  {
    if s == [] then [] else InsertDesc(s[0], SortDesc(s[1..], key), key)
  }

  lemma {:induction false} InsertDescSorted<T>(x: T, s: seq<T>, key: T -> int)
    requires SortedDesc(s, key)
    ensures SortedDesc(InsertDesc(x, s, key), key)
  {
    if s != [] && key(s[0]) > key(x) {
      InsertDescSorted(x, s[1..], key);
    }
  }

  lemma {:induction false} InsertDescMultiset<T>(x: T, s: seq<T>, key: T -> int)
    ensures multiset(InsertDesc(x, s, key)) == multiset(s) + multiset{x}
  {
    if s != [] && key(s[0]) > key(x) {
      InsertDescMultiset(x, s[1..], key);
      assert s == [s[0]] + s[1..];
    }
  }

  lemma {:induction false} InsertDescWithKey<T>(x: T, s: seq<T>, key: T -> int, k: int)
    ensures WithKey(InsertDesc(x, s, key), key, k)
         == (if key(x) == k then [x] else []) + WithKey(s, key, k)
  {
    var hx := if key(x) == k then [x] else [];
    if s != [] && key(s[0]) > key(x) {
      var hs := if key(s[0]) == k then [s[0]] else [];
      var tail := InsertDesc(x, s[1..], key);
      InsertDescWithKey(x, s[1..], key, k);
      assert ([s[0]] + tail)[0] == s[0] && ([s[0]] + tail)[1..] == tail;
      assert WithKey([s[0]] + tail, key, k) == hs + WithKey(tail, key, k);
      assert WithKey(s, key, k) == hs + WithKey(s[1..], key, k);
      if key(x) == k {
        assert key(s[0]) != k;
      }
    } else {
      assert ([x] + s)[0] == x && ([x] + s)[1..] == s;
      assert WithKey([x] + s, key, k) == hx + WithKey(s, key, k);
    }
  }

  /** Pairwise form of SortedDesc. */
  lemma {:induction false} SortedDescPairwise<T>(s: seq<T>, key: T -> int, i: int, j: int)
    requires SortedDesc(s, key)
    requires 0 <= i < j < |s|
    ensures key(s[i]) >= key(s[j])
    decreases j
  {
    if i > 0 {
      SortedDescPairwise(s[1..], key, i - 1, j - 1);
    } else if j > 1 {
      SortedDescPairwise(s[1..], key, 0, j - 1);
    }
  }

  /** The first element of a sorted sequence has the largest key. */
  lemma SortedDescHead<T>(s: seq<T>, key: T -> int, x: T)
    requires SortedDesc(s, key) && |s| > 0 && x in s
    ensures key(s[0]) >= key(x)
  {
    var j :| 0 <= j < |s| && s[j] == x;
    if j > 0 {
      SortedDescPairwise(s, key, 0, j);
    }
  }

  /** Filtering a sorted sequence leaves it sorted. */
  lemma {:induction false} FilterSortedDesc<T>(s: seq<T>, key: T -> int, p: T -> bool)
    requires SortedDesc(s, key)
    ensures SortedDesc(Filter(s, p), key)
  {
    if s != [] {
      FilterSortedDesc(s[1..], key, p);
      var rest := Filter(s[1..], p);
      assert Filter(s, p) == (if p(s[0]) then [s[0]] else []) + rest;
      if p(s[0]) && rest != [] {
        assert rest[0] in s[1..];
        assert rest[0] in s;
        SortedDescHead(s, key, rest[0]);
        var r := [s[0]] + rest;
        assert r[1..] == rest && r[1] == rest[0];
        assert key(r[0]) >= key(r[1]);
      } else if !p(s[0]) {
        assert Filter(s, p) == rest;
      }
    }
  }

  /** Taking the elements of one key commutes with any filter. */
  lemma {:induction false} WithKeyFilter<T>(s: seq<T>, key: T -> int, k: int, p: T -> bool)
    ensures WithKey(Filter(s, p), key, k) == Filter(WithKey(s, key, k), p)
  {
    if s != [] {
      WithKeyFilter(s[1..], key, k, p);
      var head := if p(s[0]) then [s[0]] else [];
      assert Filter(s, p) == head + Filter(s[1..], p);
      WithKeyAppend(head, Filter(s[1..], p), key, k);
      var kh := if key(s[0]) == k then [s[0]] else [];
      FilterAppend(kh, WithKey(s[1..], key, k), p);
      if p(s[0]) {
        assert WithKey(head, key, k) == kh by { assert head[1..] == []; }
        assert Filter(kh, p) == kh by { if kh != [] { assert kh[1..] == []; } }
      } else {
        assert Filter(kh, p) == [] by { if kh != [] { assert kh[1..] == []; } }
      }
    }
  }

  lemma {:induction false} WithKeyAppend<T>(a: seq<T>, b: seq<T>, key: T -> int, k: int)
    ensures WithKey(a + b, key, k) == WithKey(a, key, k) + WithKey(b, key, k)
  {
    if a == [] {
      assert a + b == b;
    } else {
      var h := if key(a[0]) == k then [a[0]] else [];
      assert (a + b)[0] == a[0] && (a + b)[1..] == a[1..] + b;
      assert WithKey(a + b, key, k) == h + WithKey(a[1..] + b, key, k);
      WithKeyAppend(a[1..], b, key, k);
      assert WithKey(a, key, k) == h + WithKey(a[1..], key, k);
    }
  }

  /** SortDesc orders by descending key, is a permutation of its input, and is
      stable: the elements sharing any one key keep their relative order. */
  lemma {:induction false} SortDescCorrect<T>(s: seq<T>, key: T -> int)
    ensures SortedDesc(SortDesc(s, key), key)
    ensures multiset(SortDesc(s, key)) == multiset(s)
    ensures forall k :: WithKey(SortDesc(s, key), key, k) == WithKey(s, key, k)
  {
    if s != [] {
      SortDescCorrect(s[1..], key);
      var rest := SortDesc(s[1..], key);
      InsertDescSorted(s[0], rest, key);
      InsertDescMultiset(s[0], rest, key);
      assert s == [s[0]] + s[1..];
      forall k ensures WithKey(SortDesc(s, key), key, k) == WithKey(s, key, k) {
        InsertDescWithKey(s[0], rest, key, k);
      }
    }
  }
}
