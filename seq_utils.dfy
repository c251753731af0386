/** Sequence combinators standing for the array methods the ledger code is
    written with: `filter`, `map`, `reduce` (a sum), `find`, `some`,
    `sort` with a numeric comparator and `slice(0, n)`. */
module SeqUtils {

  /** `s.filter(p)`: the elements of `s` that satisfy `p`, in order. */
  function Filter<T(!new)>(s: seq<T>, p: T -> bool): (r: seq<T>)
    ensures |r| <= |s|
    ensures forall x {:trigger x in r} :: x in r <==> x in s && p(x)
    ensures forall i :: 0 <= i < |r| ==> p(r[i])
  {
    if |s| == 0 then [] else Filter(s[..|s| - 1], p) + (if p(s[|s| - 1]) then [s[|s| - 1]] else [])
  }

  lemma {:induction false} FilterAppend<T(!new)>(a: seq<T>, b: seq<T>, p: T -> bool)
    ensures Filter(a + b, p) == Filter(a, p) + Filter(b, p)
    decreases |b|
  {
    if |b| == 0 {
      assert a + b == a;
    } else {
      var n := |b| - 1;
      assert (a + b)[..|a + b| - 1] == a + b[..n];
      assert (a + b)[|a + b| - 1] == b[n];
      FilterAppend(a, b[..n], p);
    }
  }

  /** The sum of `f` over the elements of `s` satisfying `p`. */
  function SumWhere<T>(s: seq<T>, p: T -> bool, f: T -> int): int
  {
    if |s| == 0 then 0
    else SumWhere(s[..|s| - 1], p, f) + (if p(s[|s| - 1]) then f(s[|s| - 1]) else 0)
  }

  /** Summing over the elements that satisfy `p` is summing over the
      filtered sequence. */
  lemma {:induction false} SumWhereFilter<T(!new)>(s: seq<T>, p: T -> bool, f: T -> int)
    ensures SumWhere(s, p, f) == Sum(Filter(s, p), f)
  {
    if |s| > 0 {
      var n := |s| - 1;
      SumWhereFilter(s[..n], p, f);
      var last := if p(s[n]) then [s[n]] else [];
      SumAppend(Filter(s[..n], p), last, f);
      if p(s[n]) {
        assert last[..0] == [];
      }
    }
  }

  /** Nothing passes the filter when no element satisfies the predicate. */
  lemma {:induction false} FilterNone<T(!new)>(s: seq<T>, p: T -> bool)
    requires forall i :: 0 <= i < |s| ==> !p(s[i])
    ensures Filter(s, p) == []
  {
    if |s| > 0 {
      FilterNone(s[..|s| - 1], p);
    }
  }

  /** Everything passes the filter when every element satisfies the
      predicate. */
  lemma {:induction false} FilterAll<T(!new)>(s: seq<T>, p: T -> bool)
    requires forall i :: 0 <= i < |s| ==> p(s[i])
    ensures Filter(s, p) == s
  {
    if |s| > 0 {
      FilterAll(s[..|s| - 1], p);
      assert s[..|s| - 1] + [s[|s| - 1]] == s;
    }
  }

  /** Filtering twice is filtering once by both predicates. */
  lemma {:induction false} FilterFilter<T(!new)>(s: seq<T>, p: T -> bool, q: T -> bool, both: T -> bool)
    requires forall x :: both(x) == (p(x) && q(x))
    ensures Filter(Filter(s, p), q) == Filter(s, both)
  {
    if |s| > 0 {
      var n := |s| - 1;
      FilterFilter(s[..n], p, q, both);
      FilterAppend(Filter(s[..n], p), if p(s[n]) then [s[n]] else [], q);
    }
  }

  /** Filtering by pointwise-equal predicates gives the same result. */
  lemma {:induction false} FilterExt<T(!new)>(s: seq<T>, p: T -> bool, q: T -> bool)
    requires forall x :: p(x) == q(x)
    ensures Filter(s, p) == Filter(s, q)
  {
    if |s| > 0 {
      FilterExt(s[..|s| - 1], p, q);
    }
  }

  /** `s.map(f)`. */
  function Map<T, U>(s: seq<T>, f: T -> U): (r: seq<U>)
    ensures |r| == |s|
    ensures forall i :: 0 <= i < |s| ==> r[i] == f(s[i])
  {
    if |s| == 0 then [] else Map(s[..|s| - 1], f) + [f(s[|s| - 1])]
  }

  lemma {:induction false} MapAppend<T, U>(a: seq<T>, b: seq<T>, f: T -> U)
    ensures Map(a + b, f) == Map(a, f) + Map(b, f)
  {
  }

  /** `s.reduce((sum, x) => sum + f(x), 0)`. */
  function Sum<T>(s: seq<T>, f: T -> int): int
  {
    if |s| == 0 then 0 else Sum(s[..|s| - 1], f) + f(s[|s| - 1])
  }

  lemma {:induction false} SumAppend<T>(a: seq<T>, b: seq<T>, f: T -> int)
    ensures Sum(a + b, f) == Sum(a, f) + Sum(b, f)
    decreases |b|
  {
    if |b| == 0 {
      assert a + b == a;
    } else {
      var n := |b| - 1;
      assert (a + b)[..|a + b| - 1] == a + b[..n];
      SumAppend(a, b[..n], f);
    }
  }

  /** A sum of non-negative terms is non-negative. */
  lemma {:induction false} SumNonNegative<T>(s: seq<T>, f: T -> int)
    requires forall x :: x in s ==> f(x) >= 0
    ensures Sum(s, f) >= 0
  {
    if |s| > 0 {
      SumNonNegative(s[..|s| - 1], f);
    }
  }

  /** `s.findIndex(p)`: the index of the first element satisfying `p`, or -1. */
  function FirstIndex<T>(s: seq<T>, p: T -> bool): (k: int)
    ensures -1 <= k < |s|
    ensures k >= 0 ==> p(s[k])
    ensures forall j :: 0 <= j < |s| && (k < 0 || j < k) ==> !p(s[j])
  {
    if |s| == 0 then -1
    else if p(s[0]) then 0
    else
      var k := FirstIndex(s[1..], p);
      if k < 0 then -1 else k + 1
  }

  /** `s.slice(0, n)` for a non-negative `n`. */
  function Take<T>(s: seq<T>, n: nat): (r: seq<T>)
    ensures |r| <= n && |r| <= |s|
    ensures r == s[..|r|]
    ensures |r| == if n < |s| then n else |s|
  {
    if n < |s| then s[..n] else s
  }

  /** Cutting a prefix off `s` and then a suffix of elements satisfying `p`
      leaves a slice of `s` followed in `s` only by elements satisfying `p`. */
  lemma SliceOfSuffix<T>(s: seq<T>, t: seq<T>, r: seq<T>, a: nat, p: T -> bool)
    requires a + |t| == |s| && t == s[a..]
    requires |r| <= |t| && r == t[..|r|]
    requires forall i :: |r| <= i < |t| ==> p(t[i])
    ensures a + |r| <= |s| && r == s[a..a + |r|]
    ensures forall i :: a + |r| <= i < |s| ==> p(s[i])
  {
    forall i | a + |r| <= i < |s| ensures p(s[i]) {
      assert s[i] == t[i - a];
    }
  }

  /** `key` never increases along `s`. */
  ghost predicate SortedDesc<T>(s: seq<T>, key: T -> int)
  {
    forall i, j :: 0 <= i < j < |s| ==> key(s[i]) >= key(s[j])
  }

  /** Insertion step of a stable descending sort: `x` goes after every element
      whose key is at least its own. */
  function InsertDesc<T>(t: seq<T>, x: T, key: T -> int): (r: seq<T>)
    ensures multiset(r) == multiset(t) + multiset{x}
    ensures |r| == |t| + 1
    ensures r[0] == x || (|t| > 0 && r[0] == t[0])
  {
    if |t| == 0 then [x]
    else if key(t[0]) < key(x) then [x] + t
    else
      assert t == [t[0]] + t[1..];
      [t[0]] + InsertDesc(t[1..], x, key)
  }

  /** Inserting into a descending sequence keeps it descending. */
  lemma {:induction false} InsertDescSorted<T>(t: seq<T>, x: T, key: T -> int)
    requires SortedDesc(t, key)
    ensures SortedDesc(InsertDesc(t, x, key), key)
  {
    if |t| > 0 && key(t[0]) >= key(x) {
      var rest := InsertDesc(t[1..], x, key);
      InsertDescSorted(t[1..], x, key);
      var r := InsertDesc(t, x, key);
      assert r == [t[0]] + rest;
      forall i, j | 0 <= i < j < |r| ensures key(r[i]) >= key(r[j]) {
        if i == 0 {
          assert key(t[0]) >= key(rest[0]);
          if j > 1 {
            assert key(rest[0]) >= key(rest[j - 1]);
          }
        } else {
          assert key(rest[i - 1]) >= key(rest[j - 1]);
        }
      }
    }
  }

  /** `s.sort((a, b) => key(b) - key(a))`, a stable sort by descending key. */
  function SortDesc<T>(s: seq<T>, key: T -> int): (r: seq<T>)
    ensures multiset(r) == multiset(s)
    ensures |r| == |s|
    ensures SortedDesc(r, key)
  {
    if |s| == 0 then []
    else
      assert s == s[..|s| - 1] + [s[|s| - 1]];
      var sorted := SortDesc(s[..|s| - 1], key);
      InsertDescSorted(sorted, s[|s| - 1], key);
      InsertDesc(sorted, s[|s| - 1], key)
  }

  /** `s.sort((a, b) => key(b) - key(a)).slice(0, n)`: the first `n` elements
      by descending key. No element left out has a larger key than one kept. */
  function TopBy<T>(s: seq<T>, key: T -> int, n: nat): (r: seq<T>)
    ensures |r| == if n < |s| then n else |s|
    ensures |s| <= n ==> multiset(r) == multiset(s)
    ensures multiset(r) <= multiset(s)
    ensures forall x :: x in r ==> x in s
    ensures SortedDesc(r, key)
    ensures forall x, i :: x in s && x !in r && 0 <= i < |r| ==> key(x) <= key(r[i])
  {
    var sorted := SortDesc(s, key);
    TakeOfSorted(s, sorted, key, n);
    Take(sorted, n)
  }

  /** A prefix of a descending permutation of `s` holds elements of `s`, and
      every element of `s` outside the prefix has a key no larger than any
      element in it. */
  lemma TakeOfSorted<T>(s: seq<T>, sorted: seq<T>, key: T -> int, n: nat)
    requires multiset(sorted) == multiset(s) && SortedDesc(sorted, key)
    ensures multiset(Take(sorted, n)) <= multiset(s)
    ensures forall x :: x in Take(sorted, n) ==> x in s
    ensures forall x, i :: x in s && x !in Take(sorted, n) && 0 <= i < |Take(sorted, n)| ==> key(x) <= key(Take(sorted, n)[i])
  {
    var r := Take(sorted, n);
    assert sorted == r + sorted[|r|..];
    forall x | x in r ensures x in s {
      assert x in multiset(r);
      assert x in multiset(sorted);
    }
    forall x, i | x in s && x !in r && 0 <= i < |r|
      ensures key(x) <= key(r[i])
    {
      assert x in multiset(sorted);
      var j :| 0 <= j < |sorted| && sorted[j] == x;
      assert j >= |r|;
    }
  }
}
