/** Sequence operations the store queries and the pages are built from. */
module Seqs {

  function Reverse<T>(s: seq<T>): (r: seq<T>)
    ensures |r| == |s|
    ensures forall i :: 0 <= i < |s| ==> r[i] == s[|s| - 1 - i]
  {
    seq(|s|, i requires 0 <= i < |s| => s[|s| - 1 - i])
  }

  /** Reversing twice gives the sequence back. */
  lemma ReverseInvolution<T>(s: seq<T>)
    ensures Reverse(Reverse(s)) == s
  {
  }

  /** `Array.prototype.reverse`: reverses the array in place. */
  method ReverseInPlace<T>(a: array<T>)
    modifies a
    ensures a[..] == Reverse(old(a[..]))
  {
    var lo, hi := 0, a.Length - 1;
    while lo < hi
      invariant 0 <= lo <= a.Length && -1 <= hi < a.Length && lo + hi == a.Length - 1
      invariant forall k :: 0 <= k < lo ==> a[k] == old(a[a.Length - 1 - k])
      invariant forall k :: hi < k < a.Length ==> a[k] == old(a[a.Length - 1 - k])
      invariant forall k :: lo <= k <= hi ==> a[k] == old(a[k])
    {
      a[lo], a[hi] := a[hi], a[lo];
      lo, hi := lo + 1, hi - 1;
    }
  }

  /** A fresh array holding `s`, reversed in place and read back. */
  method ReversedCopy<T>(s: seq<T>) returns (r: seq<T>)
    ensures r == Reverse(s)
  {
    var buffer := new T[|s|](i requires 0 <= i < |s| => s[i]);
    assert buffer[..] == s;
    ReverseInPlace(buffer);
    r := buffer[..];
  }

  /** `Array.prototype.map`. */
  function Map<T, U>(s: seq<T>, f: T -> U): (r: seq<U>)
    ensures |r| == |s|
    ensures forall i :: 0 <= i < |s| ==> r[i] == f(s[i])
  {
    seq(|s|, i requires 0 <= i < |s| => f(s[i]))
  }

  /** A mapped sequence between a first and a last element: where each part sits. */
  lemma Framed<T, U>(first: U, s: seq<T>, f: T -> U, last: U)
    ensures var p := [first] + Map(s, f) + [last];
      && |p| == |s| + 2 && p[0] == first && p[|p| - 1] == last
      && forall i :: 0 <= i < |s| ==> p[i + 1] == f(s[i])
  {
  }

  /** The first `n` elements (all of them when there are fewer): SQL `LIMIT n`. */
  function Take<T>(s: seq<T>, n: nat): (r: seq<T>)
    ensures |r| == if n <= |s| then n else |s|
    ensures forall i :: 0 <= i < |r| ==> r[i] == s[i]
  {
    if n <= |s| then s[..n] else s
  }

  /** Everything after the first `n` elements: SQL `OFFSET n`. */
  function Drop<T>(s: seq<T>, n: nat): (r: seq<T>)
    ensures |r| == if n <= |s| then |s| - n else 0
    ensures forall i :: 0 <= i < |r| ==> r[i] == s[n + i]
  {
    if n <= |s| then s[n..] else []
  }

  /** The elements satisfying `p`, in their original order: SQL `WHERE` or `Array.prototype.filter`. */
  function Filter<T>(s: seq<T>, p: T -> bool): (r: seq<T>)
    ensures |r| <= |s|
    ensures forall i :: 0 <= i < |r| ==> r[i] in s && p(r[i])
    ensures forall i :: 0 <= i < |s| && p(s[i]) ==> s[i] in r
    decreases |s|
  {
    if s == [] then [] else (if p(s[0]) then [s[0]] else []) + Filter(s[1..], p)
  }

  /** Filtering repeats nothing the input does not repeat. */
  lemma {:induction false} FilterSubMultiset<T>(s: seq<T>, p: T -> bool)
    ensures multiset(Filter(s, p)) <= multiset(s)
    decreases |s|
  {
    if s != [] {
      assert s == [s[0]] + s[1..];
      FilterSubMultiset(s[1..], p);
    }
  }

  /** Filtering keeps every occurrence of a value that passes and none of one that does not. */
  lemma {:induction false} FilterCount<T>(s: seq<T>, p: T -> bool, x: T)
    ensures multiset(Filter(s, p))[x] == if p(x) then multiset(s)[x] else 0
    decreases |s|
  {
    if s != [] {
      assert s == [s[0]] + s[1..];
      FilterCount(s[1..], p, x);
    }
  }

  /** Filtering a reordering of `Filter(s, p)` by `q` keeps what filtering `s` by both keeps, as often. */
  lemma {:induction false} FilterOfReordered<T>(s: seq<T>, p: T -> bool, t: seq<T>, q: T -> bool, both: T -> bool)
    requires multiset(t) == multiset(Filter(s, p))
    requires forall x :: both(x) == (p(x) && q(x))
    ensures multiset(Filter(t, q)) == multiset(Filter(s, both))
  {
    forall x ensures multiset(Filter(t, q))[x] == multiset(Filter(s, both))[x] {
      FilterCount(t, q, x);
      FilterCount(s, p, x);
      FilterCount(s, both, x);
    }
  }

  /** Filtering with two predicates that agree on every element gives the same result. */
  lemma {:induction false} FilterAgree<T>(s: seq<T>, p: T -> bool, q: T -> bool)
    requires forall x :: x in s ==> p(x) == q(x)
    ensures Filter(s, p) == Filter(s, q)
    decreases |s|
  {
    if s != [] {
      assert forall x :: x in s[1..] ==> x in s;
      FilterAgree(s[1..], p, q);
    }
  }

  /** A stronger filter keeps no more elements than a weaker one. */
  lemma {:induction false} FilterCountMonotone<T>(s: seq<T>, p: T -> bool, q: T -> bool)
    requires forall x :: x in s && p(x) ==> q(x)
    ensures |Filter(s, p)| <= |Filter(s, q)|
    decreases |s|
  {
    if s != [] {
      assert forall x :: x in s[1..] ==> x in s;
      FilterCountMonotone(s[1..], p, q);
    }
  }

  /** Non-decreasing by `key`; a descending order is written with a negated key. */
  ghost predicate SortedBy<T>(s: seq<T>, key: T -> int) {
    forall i, j :: 0 <= i < j < |s| ==> key(s[i]) <= key(s[j])
  }

  /** Filtering keeps the relative order, so a sorted sequence stays sorted. */
  lemma {:induction false} FilterKeepsSorted<T>(s: seq<T>, p: T -> bool, key: T -> int)
    requires SortedBy(s, key)
    ensures SortedBy(Filter(s, p), key)
    decreases |s|
  {
    if s != [] {
      FilterKeepsSorted(s[1..], p, key);
      var r := Filter(s[1..], p);
      forall y | y in r ensures key(s[0]) <= key(y) {
        var j :| 0 <= j < |s[1..]| && s[1..][j] == y;
      }
    }
  }

  /** Places `x` before the first element whose key is not smaller: stable insertion. */
  function Insert<T>(x: T, s: seq<T>, key: T -> int): (r: seq<T>)
    ensures multiset(r) == multiset(s) + multiset{x}
    ensures |r| == |s| + 1
  {
    if s == [] || key(x) <= key(s[0]) then [x] + s
    else
      assert s == [s[0]] + s[1..];
      [s[0]] + Insert(x, s[1..], key)
  }

  /** Inserting into a sorted sequence keeps it sorted. */
  lemma {:induction false} InsertSorted<T>(x: T, s: seq<T>, key: T -> int)
    requires SortedBy(s, key)
    ensures SortedBy(Insert(x, s, key), key)
  {
    if s != [] && key(x) > key(s[0]) {
      var rest := Insert(x, s[1..], key);
      InsertSorted(x, s[1..], key);
      forall j | 0 <= j < |rest| ensures key(s[0]) <= key(rest[j]) {
        assert rest[j] in multiset(rest);
        if rest[j] != x {
          assert rest[j] in multiset(s[1..]);
          var i :| 0 <= i < |s[1..]| && s[1..][i] == rest[j];
          assert s[i + 1] == rest[j];
        }
      }
    }
  }

  /**
   * Stable sort by `key`: SQL `ORDER BY` where rows with equal keys stay in the
   * order the store holds them, and `Array.prototype.sort`, which is stable.
   */
  function SortBy<T>(s: seq<T>, key: T -> int): (r: seq<T>)
    ensures SortedBy(r, key)
    ensures multiset(r) == multiset(s)
    ensures |r| == |s|
  {
    if s == [] then []
    else
      var rest := SortBy(s[1..], key);
      InsertHead(s, rest, key);
      Insert(s[0], rest, key)
  }

  /** Inserting the head into the sorted tail sorts the whole sequence. */
  lemma {:induction false} InsertHead<T>(s: seq<T>, rest: seq<T>, key: T -> int)
    requires s != [] && SortedBy(rest, key) && multiset(rest) == multiset(s[1..])
    ensures SortedBy(Insert(s[0], rest, key), key)
    ensures multiset(Insert(s[0], rest, key)) == multiset(s)
  {
    InsertSorted(s[0], rest, key);
    assert s == [s[0]] + s[1..];
  }

  /** Sorting keeps exactly the elements of the input. */
  lemma SortByMembers<T>(s: seq<T>, key: T -> int, x: T)
    ensures x in SortBy(s, key) <==> x in s
  {
    var r := SortBy(s, key);
    assert x in r <==> x in multiset(r);
    assert x in s <==> x in multiset(s);
  }

  predicate Distinct<T(==)>(s: seq<T>) {
    forall i, j :: 0 <= i < j < |s| ==> s[i] != s[j]
  }

  /** In a sequence without repeats every value occurs at most once. */
  lemma {:induction false} DistinctCount<T>(s: seq<T>, x: T)
    requires Distinct(s)
    ensures multiset(s)[x] <= 1
    decreases |s|
  {
    if s != [] {
      assert s == [s[0]] + s[1..];
      DistinctCount(s[1..], x);
      if x == s[0] {
        assert x !in s[1..];
      }
    }
  }

  /** A permutation of a sequence without repeats has no repeats. */
  lemma PermutationKeepsDistinct<T>(s: seq<T>, r: seq<T>)
    requires Distinct(s) && multiset(r) == multiset(s)
    ensures Distinct(r)
  {
    forall i, j | 0 <= i < j < |r| ensures r[i] != r[j] {
      DistinctCount(s, r[i]);
      assert r == r[..j] + r[j..];
      assert multiset(r) == multiset(r[..j]) + multiset(r[j..]);
      assert r[i] in r[..j] && r[j] in r[j..];
    }
  }

  /** Every element of `s` that `r` leaves out sorts, by `key`, no earlier than every element `r` keeps. */
  ghost predicate KeepsFirst<T(!new)>(s: seq<T>, r: seq<T>, key: T -> int) {
    forall x :: x in s && x !in r ==> forall i :: 0 <= i < |r| ==> key(r[i]) <= key(x)
  }

  /**
   * `ORDER BY key LIMIT n`: the first `n` elements of the stable sort. It holds
   * only elements of the input, holds all of them when they fit, and repeats
   * nothing the input does not repeat.
   */
  function TopBy<T(==,!new)>(s: seq<T>, key: T -> int, n: nat): (r: seq<T>)
    ensures |r| == if n <= |s| then n else |s|
    ensures SortedBy(r, key)
    ensures forall i :: 0 <= i < |r| ==> r[i] in s
    ensures |s| <= n ==> forall i :: 0 <= i < |s| ==> s[i] in r
    ensures Distinct(s) ==> Distinct(r)
    ensures multiset(r) <= multiset(s)
    ensures KeepsFirst(s, r, key)
  {
    var r := Take(SortBy(s, key), n);
    TopByFacts(s, key, n, r);
    TopByLeavesLarger(s, key, n, r);
    r
  }

  /** Which elements the prefix of the stable sort keeps. */
  lemma {:induction false} TopByFacts<T(!new)>(s: seq<T>, key: T -> int, n: nat, r: seq<T>)
    requires r == Take(SortBy(s, key), n)
    ensures forall i :: 0 <= i < |r| ==> r[i] in s
    ensures |s| <= n ==> forall i :: 0 <= i < |s| ==> s[i] in r
    ensures Distinct(s) ==> Distinct(r)
  {
    var sorted := SortBy(s, key);
    forall i | 0 <= i < |r| ensures r[i] in s {
      assert r[i] == sorted[i];
      SortByMembers(s, key, r[i]);
    }
    if |s| <= n {
      assert r == sorted;
      forall i | 0 <= i < |s| ensures s[i] in r {
        assert s[i] in multiset(s);
      }
    }
    if Distinct(s) {
      PermutationKeepsDistinct(s, sorted);
      assert forall i :: 0 <= i < |r| ==> r[i] == sorted[i];
    }
  }

  /** What the prefix leaves behind has a key at least that of everything kept. */
  lemma {:induction false} TopByLeavesLarger<T(!new)>(s: seq<T>, key: T -> int, n: nat, r: seq<T>)
    requires r == Take(SortBy(s, key), n)
    ensures multiset(r) <= multiset(s)
    ensures forall x :: x in s && x !in r ==> forall i :: 0 <= i < |r| ==> key(r[i]) <= key(x)
  {
    var sorted := SortBy(s, key);
    TakeSmallest(sorted, key, n, r);
    forall x | x in s && x !in r ensures forall i :: 0 <= i < |r| ==> key(r[i]) <= key(x) {
      SortByMembers(s, key, x);
    }
  }

  /**
   * A prefix of a sorted sequence repeats nothing the sequence does not, and
   * every element it leaves behind has a key at least that of every kept element.
   */
  lemma {:induction false} TakeSmallest<T>(t: seq<T>, key: T -> int, n: nat, r: seq<T>)
    requires SortedBy(t, key) && r == Take(t, n)
    ensures multiset(r) <= multiset(t)
    ensures forall x :: x in t && x !in r ==> forall i :: 0 <= i < |r| ==> key(r[i]) <= key(x)
  {
    if n < |t| {
      var rest := t[n..];
      assert r == t[..n];
      assert t == r + rest;
      assert multiset(t) == multiset(r) + multiset(rest);
      forall x | x in t && x !in r
        ensures forall i :: 0 <= i < |r| ==> key(r[i]) <= key(x)
      {
        var k :| 0 <= k < |t| && t[k] == x;
        assert x !in t[..n];
        forall i | 0 <= i < |r| ensures key(r[i]) <= key(x) {
          assert r[i] == t[i];
        }
      }
    } else {
      assert r == t;
    }
  }

  /** `WHERE p ORDER BY key LIMIT n`: the facts of `TopBy` restated against the unfiltered rows. */
  lemma {:induction false} TopOfFilter<T(!new)>(s: seq<T>, p: T -> bool, key: T -> int, n: nat, r: seq<T>)
    requires r == TopBy(Filter(s, p), key, n)
    ensures forall i :: 0 <= i < |r| ==> r[i] in s && p(r[i])
    ensures |r| < n ==> forall x :: x in s && p(x) ==> x in r
  {
    FilterMembers(s, p);
  }

  /** After `WHERE p`, what `ORDER BY key LIMIT n` leaves out sorts no earlier than what it keeps. */
  lemma {:induction false} TopOfFilterBound<T(!new)>(s: seq<T>, p: T -> bool, key: T -> int, n: nat, r: seq<T>)
    requires r == TopBy(Filter(s, p), key, n)
    ensures forall x :: x in s && p(x) && x !in r ==> forall i :: 0 <= i < |r| ==> key(r[i]) <= key(x)
  {
    FilterMembers(s, p);
  }

  /** `WHERE p ORDER BY key LIMIT n` repeats nothing the input does not repeat. */
  lemma {:induction false} TopOfFilterNoRepeats<T(!new)>(s: seq<T>, p: T -> bool, key: T -> int, n: nat, r: seq<T>)
    requires r == TopBy(Filter(s, p), key, n)
    ensures multiset(r) <= multiset(s)
  {
    FilterSubMultiset(s, p);
  }

  /** An element is kept by the filter exactly when it is in the input and satisfies `p`. */
  lemma {:induction false} FilterMembers<T>(s: seq<T>, p: T -> bool)
    ensures forall x :: x in Filter(s, p) <==> x in s && p(x)
  {
    var rows := Filter(s, p);
    forall x | x in rows ensures x in s && p(x) {
      var k :| 0 <= k < |rows| && rows[k] == x;
    }
    forall x | x in s && p(x) ensures x in rows {
      var k :| 0 <= k < |s| && s[k] == x;
    }
  }

  /** Reversing a sequence sorted by a key sorts it by the negated key. */
  lemma ReverseSorted<T>(s: seq<T>, key: T -> int, flipped: T -> int)
    requires SortedBy(s, key)
    requires forall x :: flipped(x) == -key(x)
    ensures SortedBy(Reverse(s), flipped)
  {
    var r := Reverse(s);
    forall i, j | 0 <= i < j < |r| ensures flipped(r[i]) <= flipped(r[j]) {
      assert key(s[|s| - 1 - j]) <= key(s[|s| - 1 - i]);
    }
  }

  /** An element strictly below every other key comes first in the top `n`. */
  lemma TopByFirst<T(!new)>(s: seq<T>, key: T -> int, n: nat, x: T)
    requires n >= 1 && x in s
    requires forall i :: 0 <= i < |s| && s[i] != x ==> key(x) < key(s[i])
    ensures |TopBy(s, key, n)| >= 1 && TopBy(s, key, n)[0] == x
  {
    var sorted := SortBy(s, key);
    SortByMembers(s, key, x);
    var j :| 0 <= j < |sorted| && sorted[j] == x;
    SortByMembers(s, key, sorted[0]);
    assert key(sorted[0]) <= key(sorted[j]);
  }

  /** Reversing is a permutation. */
  lemma {:induction false} ReversePermutes<T>(s: seq<T>)
    ensures multiset(Reverse(s)) == multiset(s)
    decreases |s|
  {
    if s != [] {
      ReversePermutes(s[1..]);
      assert Reverse(s) == Reverse(s[1..]) + [s[0]];
      assert s == [s[0]] + s[1..];
    }
  }

  /** Reversing keeps every element satisfying `p`. */
  lemma {:induction false} ReverseKeeps<T>(h: seq<T>, p: T -> bool)
    requires forall i :: 0 <= i < |h| ==> p(h[i])
    ensures forall i :: 0 <= i < |Reverse(h)| ==> p(Reverse(h)[i])
  {
    forall i | 0 <= i < |Reverse(h)| ensures p(Reverse(h)[i]) {
      assert Reverse(h)[i] == h[|h| - 1 - i];
    }
  }

  /** Reversing keeps the fact that everything left out has a key no larger than everything kept. */
  lemma {:induction false} ReverseKeepsBound<T>(h: seq<T>, p: T -> bool, key: T -> int)
    requires forall x :: p(x) && x !in h ==> forall i :: 0 <= i < |h| ==> key(x) <= key(h[i])
    ensures forall x :: p(x) && x !in Reverse(h) ==> forall i :: 0 <= i < |Reverse(h)| ==> key(x) <= key(Reverse(h)[i])
  {
    ReverseMembers(h);
    forall x, i | p(x) && x !in Reverse(h) && 0 <= i < |Reverse(h)| ensures key(x) <= key(Reverse(h)[i]) {
      assert Reverse(h)[i] == h[|h| - 1 - i];
    }
  }

  /** Reversing keeps exactly the elements. */
  lemma ReverseMembers<T>(s: seq<T>)
    ensures forall x :: x in Reverse(s) <==> x in s
  {
    forall x | x in s ensures x in Reverse(s) {
      var k :| 0 <= k < |s| && s[k] == x;
      assert Reverse(s)[|s| - 1 - k] == x;
    }
  }
}
