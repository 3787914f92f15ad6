/** JavaScript array operations used throughout: `slice(0, end)`, `[...new Set(xs)]` and the
    stable `sort((a, b) => key(b) - key(a))` that orders by a numeric key, largest first. */
module Collections {

  datatype Option<T> = None | Some(value: T)

  /** A value, or the message of the exception that the source throws instead. */
  datatype Result<T> = Ok(value: T) | Error(message: string)

  /** A JavaScript truthiness test on an optional string: absent and empty are both false. */
  predicate Present(s: Option<string>) { s.Some? && s.value != "" }

  function Min(a: int, b: int): int { if a <= b then a else b }

  /** The number of elements `xs.slice(0, end)` keeps from an array of length `n`:
      a negative `end` counts back from the end of the array. */
  function SliceEnd(n: nat, end: int): (k: nat)
    ensures k <= n
    ensures end >= 0 ==> k == Min(end, n)
    ensures end < 0 ==> k == if n + end >= 0 then n + end else 0
  {
    if end >= 0 then (if end <= n then end else n)
    else if n + end >= 0 then n + end else 0
  }

  function SlicePrefix<T>(s: seq<T>, end: int): (r: seq<T>)
    ensures |r| == SliceEnd(|s|, end) && r == s[..|r|]
  {
    s[..SliceEnd(|s|, end)]
  }

  predicate NoDuplicates<T(==)>(s: seq<T>)
  {
    forall i, j :: 0 <= i < j < |s| ==> s[i] != s[j]
  }

  /** `[...new Set(s)]`: each value once, in the order of its first occurrence. */
  function Dedup<T(==)>(s: seq<T>): (r: seq<T>)
    ensures forall i :: 0 <= i < |r| ==> r[i] in s
    ensures forall i :: 0 <= i < |s| ==> s[i] in r
    ensures |s| > 0 ==> |r| > 0 && r[0] == s[0]
    ensures |r| <= |s|
  {
    if s == [] then []
    else
      var r := Dedup(s[..|s| - 1]);
      if s[|s| - 1] in r then r
      else
        assert forall i :: 0 <= i < |s| - 1 ==> s[i] == s[..|s| - 1][i];
        r + [s[|s| - 1]]
  }

  /** Dedup leaves no value twice. */
  lemma {:induction false} DedupDistinct<T>(s: seq<T>)
    ensures NoDuplicates(Dedup(s))
  {
    if s != [] {
      DedupDistinct(s[..|s| - 1]);
    }
  }

  /** Some occurrence of `x` in `s` comes before every occurrence of `y`. */
  predicate SeenBefore<T(==)>(s: seq<T>, x: T, y: T)
  {
    exists k :: 0 <= k < |s| && s[k] == x && y !in s[..k]
  }

  /** Dedup keeps the order of first occurrences: a value listed earlier was seen in `s` before
      any occurrence of a value listed later. */
  lemma {:induction false} DedupOrder<T>(s: seq<T>)
    ensures forall i, j :: 0 <= i < j < |Dedup(s)| ==> SeenBefore(s, Dedup(s)[i], Dedup(s)[j])
  {
    if s != [] {
      var init, last := s[..|s| - 1], s[|s| - 1];
      DedupOrder(init);
      var d, r := Dedup(init), Dedup(s);
      assert r == if last in d then d else d + [last];
      forall i, j | 0 <= i < j < |r| ensures SeenBefore(s, r[i], r[j]) {
        assert r[i] == d[i] && d[i] in init;
        if j < |d| {
          assert r[j] == d[j];
          var k :| 0 <= k < |init| && init[k] == d[i] && d[j] !in init[..k];
          assert s[..k] == init[..k] && s[k] == init[k];
        } else {
          assert r[j] == last && last !in init;
          var k :| 0 <= k < |init| && init[k] == d[i];
          assert s[..k] == init[..k] && s[k] == init[k];
        }
      }
    }
  }

  /** Dedup keeps a list that has no duplicates as it is. */
  lemma {:induction false} DedupOfDistinct<T>(s: seq<T>)
    requires NoDuplicates(s)
    ensures Dedup(s) == s
  {
    if s != [] {
      var init := s[..|s| - 1];
      assert NoDuplicates(init);
      DedupOfDistinct(init);
      assert s[|s| - 1] !in init;
      assert s == init + [s[|s| - 1]];
    }
  }

  // ---------------------------------------------------------------------
  // Filtering

  /** `s.filter(p)`. */
  function Filter<T(==)>(s: seq<T>, p: T -> bool): (r: seq<T>)
    ensures |r| <= |s|
    ensures forall i :: 0 <= i < |r| ==> r[i] in s && p(r[i])
    ensures forall i :: 0 <= i < |s| && p(s[i]) ==> s[i] in r
  {
    if s == [] then []
    else
      var last := s[|s| - 1];
      assert s == s[..|s| - 1] + [last];
      Filter(s[..|s| - 1], p) + (if p(last) then [last] else [])
  }

  /** `r` is `s` with some elements left out and the rest in their order. */
  predicate Subsequence<T(==)>(r: seq<T>, s: seq<T>)
    decreases |s|
  {
    if r == [] then true
    else if s == [] then false
    else if r[|r| - 1] == s[|s| - 1] then Subsequence(r[..|r| - 1], s[..|s| - 1])
    else Subsequence(r, s[..|s| - 1])
  }

  lemma {:induction false} FilterSubsequence<T>(s: seq<T>, p: T -> bool)
    ensures Subsequence(Filter(s, p), s)
  {
    if s != [] {
      var init, last := s[..|s| - 1], s[|s| - 1];
      FilterSubsequence(init, p);
      var r := Filter(s, p);
      if p(last) {
        assert r[..|r| - 1] == Filter(init, p);
      } else {
        assert r == Filter(init, p);
      }
    }
  }

  lemma {:induction false} FilterAll<T>(s: seq<T>, p: T -> bool)
    requires forall i :: 0 <= i < |s| ==> p(s[i])
    ensures Filter(s, p) == s
  {
    if s != [] {
      FilterAll(s[..|s| - 1], p);
    }
  }

  /** Filters that agree on every value keep the same elements. */
  lemma {:induction false} FilterSame<T>(s: seq<T>, p: T -> bool, q: T -> bool)
    requires forall x :: p(x) == q(x)
    ensures Filter(s, p) == Filter(s, q)
  {
    if s != [] {
      FilterSame(s[..|s| - 1], p, q);
    }
  }

  /** Two filters in a row keep what both keep. */
  lemma {:induction false} FilterTwice<T>(s: seq<T>, p: T -> bool, q: T -> bool, both: T -> bool)
    requires forall x :: both(x) == (p(x) && q(x))
    ensures Filter(Filter(s, p), q) == Filter(s, both)
  {
    if s != [] {
      var init, last := s[..|s| - 1], s[|s| - 1];
      FilterTwice(init, p, q, both);
      var f := Filter(s, p);
      if p(last) {
        assert f[..|f| - 1] == Filter(init, p);
        assert f[|f| - 1] == last;
      } else {
        assert f == Filter(init, p);
      }
    }
  }

  /** A filter and its complement split the list. */
  lemma {:induction false} FilterSplit<T>(s: seq<T>, p: T -> bool, q: T -> bool)
    requires forall x :: q(x) == !p(x)
    ensures |Filter(s, p)| + |Filter(s, q)| == |s|
  {
    if s != [] {
      FilterSplit(s[..|s| - 1], p, q);
    }
  }

  // ---------------------------------------------------------------------
  // Stable sort, largest key first.

  predicate SortedDesc<T>(s: seq<T>, key: T -> real)
  {
    forall i, j :: 0 <= i < j < |s| ==> key(s[i]) >= key(s[j])
  }

  /** Places `x` after every element whose key is at least `key(x)`: ties keep `x` last. */
  function InsertDesc<T>(x: T, s: seq<T>, key: T -> real): (r: seq<T>)
    ensures |r| == |s| + 1
  {
    if s == [] then [x]
    else if key(s[0]) < key(x) then [x] + s
    else [s[0]] + InsertDesc(x, s[1..], key)
  }

  /** Insertion adds `x` and keeps every element of `s`. */
  lemma {:induction false} InsertDescPerm<T>(x: T, s: seq<T>, key: T -> real)
    ensures multiset(InsertDesc(x, s, key)) == multiset(s) + multiset{x}
  {
    if s != [] && key(s[0]) >= key(x) {
      InsertDescPerm(x, s[1..], key);
      assert s == [s[0]] + s[1..];
    }
  }

  lemma {:induction false} InsertDescBelow<T>(x: T, s: seq<T>, key: T -> real, m: real)
    requires key(x) <= m && forall k :: 0 <= k < |s| ==> key(s[k]) <= m
    ensures forall k :: 0 <= k < |InsertDesc(x, s, key)| ==> key(InsertDesc(x, s, key)[k]) <= m
  {
    if s != [] && key(s[0]) >= key(x) {
      InsertDescBelow(x, s[1..], key, m);
    }
  }

  /** `[x] + t` is sorted when `t` is and no key in `t` exceeds `key(x)`. */
  lemma ConsSorted<T>(x: T, t: seq<T>, key: T -> real)
    requires SortedDesc(t, key)
    requires forall k :: 0 <= k < |t| ==> key(t[k]) <= key(x)
    ensures SortedDesc([x] + t, key)
  {
    var r := [x] + t;
    forall i, j | 0 <= i < j < |r| ensures key(r[i]) >= key(r[j]) {
      assert r[j] == t[j - 1];
      if i > 0 {
        assert r[i] == t[i - 1];
      }
    }
  }

  lemma {:induction false} InsertDescSorted<T>(x: T, s: seq<T>, key: T -> real)
    requires SortedDesc(s, key)
    ensures SortedDesc(InsertDesc(x, s, key), key)
  {
    if s == [] {
    } else if key(s[0]) < key(x) {
      ConsSorted(x, s, key);
    } else {
      var rest := s[1..];
      assert SortedDesc(rest, key);
      assert forall k :: 0 <= k < |rest| ==> key(rest[k]) <= key(s[0]);
      InsertDescSorted(x, rest, key);
      InsertDescBelow(x, rest, key, key(s[0]));
      ConsSorted(s[0], InsertDesc(x, rest, key), key);
    }
  }

  /** Insertion sort that inserts the elements in their input order: a stable sort. */
  function SortDesc<T>(s: seq<T>, key: T -> real): (r: seq<T>)
    ensures |r| == |s|
    ensures SortedDesc(r, key)
  {
    if s == [] then []
    else
      var sorted := SortDesc(s[..|s| - 1], key);
      InsertDescSorted(s[|s| - 1], sorted, key);
      InsertDesc(s[|s| - 1], sorted, key)
  }

  /** The sort is a permutation of its input. */
  lemma {:induction false} SortDescPerm<T>(s: seq<T>, key: T -> real)
    ensures multiset(SortDesc(s, key)) == multiset(s)
  {
    if s != [] {
      var init := s[..|s| - 1];
      SortDescPerm(init, key);
      InsertDescPerm(s[|s| - 1], SortDesc(init, key), key);
      assert s == init + [s[|s| - 1]];
    }
  }

  lemma SortedMembers<T>(s: seq<T>, key: T -> real)
    ensures forall x :: x in SortDesc(s, key) <==> x in s
  {
    var r := SortDesc(s, key);
    SortDescPerm(s, key);
    forall x ensures x in r <==> x in s {
      assert x in r <==> x in multiset(r);
      assert x in s <==> x in multiset(s);
    }
  }

  lemma SortedPrefix<T>(s: seq<T>, key: T -> real, n: nat)
    requires SortedDesc(s, key) && n <= |s|
    ensures SortedDesc(s[..n], key)
  {
  }

  /** The elements of `s` whose key is exactly `k`, in their order in `s`. */
  function WithKey<T>(s: seq<T>, key: T -> real, k: real): seq<T>
  {
    if s == [] then []
    else WithKey(s[..|s| - 1], key, k) + (if key(s[|s| - 1]) == k then [s[|s| - 1]] else [])
  }

  lemma {:induction false} WithKeyConcat<T>(a: seq<T>, b: seq<T>, key: T -> real, k: real)
    ensures WithKey(a + b, key, k) == WithKey(a, key, k) + WithKey(b, key, k)
  {
    if b != [] {
      assert (a + b)[..|a + b| - 1] == a + b[..|b| - 1];
      WithKeyConcat(a, b[..|b| - 1], key, k);
    } else {
      assert a + b == a;
    }
  }

  lemma {:induction false} WithKeyNone<T>(s: seq<T>, key: T -> real, k: real)
    requires forall i :: 0 <= i < |s| ==> key(s[i]) != k
    ensures WithKey(s, key, k) == []
  {
    if s != [] {
      WithKeyNone(s[..|s| - 1], key, k);
    }
  }

  lemma WithKeySingle<T>(x: T, key: T -> real, k: real)
    ensures WithKey([x], key, k) == if key(x) == k then [x] else []
  {
    assert [x][..0] == [];
  }

  lemma InsertDescWithKeyFront<T>(x: T, s: seq<T>, key: T -> real, k: real)
    requires SortedDesc(s, key) && s != [] && key(s[0]) < key(x)
    ensures WithKey([x] + s, key, k) == WithKey(s, key, k) + (if key(x) == k then [x] else [])
  {
    WithKeyConcat([x], s, key, k);
    WithKeySingle(x, key, k);
    if key(x) == k {
      WithKeyNone(s, key, k);
    }
  }

  lemma {:induction false} InsertDescWithKey<T>(x: T, s: seq<T>, key: T -> real, k: real)
    requires SortedDesc(s, key)
    ensures WithKey(InsertDesc(x, s, key), key, k)
         == WithKey(s, key, k) + (if key(x) == k then [x] else [])
  {
    if s == [] {
      WithKeySingle(x, key, k);
    } else if key(s[0]) < key(x) {
      InsertDescWithKeyFront(x, s, key, k);
    } else {
      var t := InsertDesc(x, s[1..], key);
      assert InsertDesc(x, s, key) == [s[0]] + t;
      assert SortedDesc(s[1..], key);
      InsertDescWithKey(x, s[1..], key, k);
      WithKeyConcat([s[0]], t, key, k);
      WithKeyConcat([s[0]], s[1..], key, k);
      assert s == [s[0]] + s[1..];
    }
  }

  /** Stability: among elements with the same key, the sort keeps their input order. */
  lemma {:induction false} SortDescStable<T>(s: seq<T>, key: T -> real, k: real)
    ensures WithKey(SortDesc(s, key), key, k) == WithKey(s, key, k)
  {
    if s != [] {
      var init := s[..|s| - 1];
      SortDescStable(init, key, k);
      InsertDescWithKey(s[|s| - 1], SortDesc(init, key), key, k);
    }
  }

  /** No two elements of `s` share a value of `id`. */
  predicate DistinctBy<T, K(==)>(s: seq<T>, id: T -> K)
  {
    forall i, j :: 0 <= i < j < |s| ==> id(s[i]) != id(s[j])
  }

  lemma {:induction false} InsertDescDistinct<T, K>(x: T, s: seq<T>, key: T -> real, id: T -> K)
    requires DistinctBy(s, id)
    requires forall i :: 0 <= i < |s| ==> id(s[i]) != id(x)
    ensures DistinctBy(InsertDesc(x, s, key), id)
  {
    if s != [] && key(s[0]) >= key(x) {
      InsertDescDistinct(x, s[1..], key, id);
      InsertDescPerm(x, s[1..], key);
      var t := InsertDesc(x, s[1..], key);
      forall k | 0 <= k < |t| ensures id(t[k]) != id(s[0]) {
        assert t[k] in multiset(t);
        assert t[k] in multiset(s[1..]) || t[k] == x;
        if t[k] != x {
          var j :| 0 <= j < |s[1..]| && s[1..][j] == t[k];
          assert s[j + 1] == t[k];
        }
      }
    }
  }

  /** Sorting never makes two elements share an `id` that did not share one before. */
  lemma {:induction false} SortDescDistinct<T, K>(s: seq<T>, key: T -> real, id: T -> K)
    requires DistinctBy(s, id)
    ensures DistinctBy(SortDesc(s, key), id)
  {
    if s != [] {
      var init := s[..|s| - 1];
      var x := s[|s| - 1];
      assert DistinctBy(init, id);
      SortDescDistinct(init, key, id);
      SortDescPerm(init, key);
      var t := SortDesc(init, key);
      forall i | 0 <= i < |t| ensures id(t[i]) != id(x) {
        assert t[i] in multiset(t);
        var j :| 0 <= j < |init| && init[j] == t[i];
        assert s[j] == t[i];
      }
      InsertDescDistinct(x, t, key, id);
    }
  }
}
