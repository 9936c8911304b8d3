/** Generic collection helpers of the list builder (services/Helpers.ts), together
    with the lodash primitives the services lean on (`filter`, `groupBy` with
    `Object.keys` order, `sortBy`). */
module Helpers {
  import opened Basics

  // ---------------------------------------------------------------------------
  // Filtering and subsequences
  // ---------------------------------------------------------------------------

  /** `xs.filter(p)`. */
  function Filter<T>(xs: seq<T>, p: T -> bool): (r: seq<T>)
    ensures |r| <= |xs|
    ensures forall x :: x in r ==> x in xs && p(x)
  {
    if |xs| == 0 then []
    else Filter(xs[..|xs| - 1], p) + (if p(xs[|xs| - 1]) then [xs[|xs| - 1]] else [])
  }

  lemma {:induction false} FilterConcat<T>(a: seq<T>, b: seq<T>, p: T -> bool)
    ensures Filter(a + b, p) == Filter(a, p) + Filter(b, p)
    decreases |b|
  {
    if |b| > 0 {
      assert (a + b)[..|a + b| - 1] == a + b[..|b| - 1];
      FilterConcat(a, b[..|b| - 1], p);
    } else {
      assert a + b == a;
    }
  }

  /** An element is kept exactly when it is present and satisfies the predicate. */
  lemma {:induction false} FilterMembership<T>(xs: seq<T>, p: T -> bool, x: T)
    ensures x in Filter(xs, p) <==> x in xs && p(x)
  {
    if |xs| > 0 {
      FilterMembership(xs[..|xs| - 1], p, x);
      assert xs == xs[..|xs| - 1] + [xs[|xs| - 1]];
    }
  }

  /** Some element satisfies `p` exactly when one before the last does, or the last. */
  lemma ExistsLast<T>(xs: seq<T>, p: T -> bool)
    requires |xs| > 0
    ensures (exists x :: x in xs && p(x)) <==> (exists x :: x in xs[..|xs| - 1] && p(x)) || p(xs[|xs| - 1])
  {
    assert xs == xs[..|xs| - 1] + [xs[|xs| - 1]];
  }

  /** `xs.map(f)`. */
  function Map<T, U>(xs: seq<T>, f: T -> U): (r: seq<U>)
    ensures |r| == |xs| && forall i :: 0 <= i < |xs| ==> r[i] == f(xs[i])
  {
    seq(|xs|, i requires 0 <= i < |xs| => f(xs[i]))
  }

  lemma MapConcat<T, U>(a: seq<T>, b: seq<T>, f: T -> U)
    ensures Map(a + b, f) == Map(a, f) + Map(b, f)
  {
    var l, r := Map(a + b, f), Map(a, f) + Map(b, f);
    forall i | 0 <= i < |l|
      ensures l[i] == r[i]
    {
      if i < |a| {
        assert (a + b)[i] == a[i];
      } else {
        assert (a + b)[i] == b[i - |a|];
      }
    }
  }

  /** The blocks `f` gives for each element, one after the other. */
  function FlatMap<T, U>(xs: seq<T>, f: T -> seq<U>): seq<U>
  {
    if |xs| == 0 then [] else FlatMap(xs[..|xs| - 1], f) + f(xs[|xs| - 1])
  }

  lemma {:induction false} FlatMapLength<T, U>(xs: seq<T>, f: T -> seq<U>, n: nat)
    requires forall x :: |f(x)| == n
    ensures |FlatMap(xs, f)| == n * |xs|
  {
    if |xs| > 0 {
      FlatMapLength(xs[..|xs| - 1], f, n);
    }
  }

  /** With blocks of three, line `3 * k + j` is line `j` of element `k`'s block. */
  lemma {:induction false} FlatMapBlocks<T, U>(xs: seq<T>, f: T -> seq<U>, k: nat, j: nat)
    requires forall x :: |f(x)| == 3
    requires k < |xs| && j < 3
    ensures |FlatMap(xs, f)| == 3 * |xs| && FlatMap(xs, f)[3 * k + j] == f(xs[k])[j]
  {
    var init := xs[..|xs| - 1];
    FlatMapLength(xs, f, 3);
    FlatMapLength(init, f, 3);
    if k < |init| {
      FlatMapBlocks(init, f, k, j);
      assert init[k] == xs[k];
    }
  }

  /** Filtering by a predicate every element satisfies changes nothing. */
  lemma {:induction false} FilterKeepsAll<T>(xs: seq<T>, p: T -> bool)
    requires forall i :: 0 <= i < |xs| ==> p(xs[i])
    ensures Filter(xs, p) == xs
  {
    if |xs| > 0 {
      FilterKeepsAll(xs[..|xs| - 1], p);
    }
  }

  /** A predicate and its negation split a sequence without losing anything. */
  lemma {:induction false} FilterPartition<T>(xs: seq<T>, p: T -> bool, q: T -> bool)
    requires forall x :: q(x) == !p(x)
    ensures multiset(Filter(xs, p)) + multiset(Filter(xs, q)) == multiset(xs)
  {
    if |xs| > 0 {
      var init, last := xs[..|xs| - 1], xs[|xs| - 1];
      FilterPartition(init, p, q);
      MultisetOfLast(xs);
      var fp, fq := Filter(init, p), Filter(init, q);
      if p(last) {
        assert Filter(xs, p) == fp + [last] && Filter(xs, q) == fq;
      } else {
        assert Filter(xs, p) == fp && Filter(xs, q) == fq + [last];
      }
    }
  }

  lemma SnocLast<T>(xs: seq<T>)
    requires |xs| > 0
    ensures xs[..|xs| - 1] + [xs[|xs| - 1]] == xs
  {
  }

  lemma MultisetOfLast<T>(xs: seq<T>)
    requires |xs| > 0
    ensures multiset(xs) == multiset(xs[..|xs| - 1]) + multiset{xs[|xs| - 1]}
  {
    assert xs == xs[..|xs| - 1] + [xs[|xs| - 1]];
  }

  lemma FilterPartitionSizes<T>(xs: seq<T>, p: T -> bool, q: T -> bool)
    requires forall x :: q(x) == !p(x)
    ensures |Filter(xs, p)| + |Filter(xs, q)| == |xs|
  {
    FilterPartition(xs, p, q);
    assert |multiset(Filter(xs, p)) + multiset(Filter(xs, q))| == |multiset(xs)|;
  }

  /** Two positions of `xs` satisfying `p` carry the same key. */
  predicate RepeatedAmong<T, K(==)>(xs: seq<T>, p: T -> bool, key: T -> K) {
    exists i, j :: 0 <= i < j < |xs| && p(xs[i]) && p(xs[j]) && key(xs[i]) == key(xs[j])
  }

  /** Two positions of `xs` satisfying both `p` and `q` carry the same key. */
  predicate RepeatedAmongBoth<T, K(==)>(xs: seq<T>, p: T -> bool, q: T -> bool, key: T -> K) {
    exists i, j :: 0 <= i < j < |xs| && p(xs[i]) && q(xs[i]) && p(xs[j]) && q(xs[j]) && key(xs[i]) == key(xs[j])
  }

  /** A key repeats among the kept elements exactly when it repeats among the
      elements of the input that satisfy both predicates. */
  lemma FilterRepeated<T, K>(xs: seq<T>, p: T -> bool, q: T -> bool, key: T -> K)
    ensures RepeatedAmong(Filter(xs, p), q, key) <==> RepeatedAmongBoth(xs, p, q, key)
  {
    if RepeatedAmong(Filter(xs, p), q, key) {
      FilterRepeatedOnlyFromInput(xs, p, q, key);
    }
    if RepeatedAmongBoth(xs, p, q, key) {
      FilterRepeatedKept(xs, p, q, key);
    }
  }

  lemma {:induction false} FilterRepeatedOnlyFromInput<T, K>(xs: seq<T>, p: T -> bool, q: T -> bool, key: T -> K)
    requires RepeatedAmong(Filter(xs, p), q, key)
    ensures RepeatedAmongBoth(xs, p, q, key)
  {
    var n := |xs| - 1;
    var init, last := xs[..n], xs[n];
    var f := Filter(init, p);
    var r := Filter(xs, p);
    assert r == f + (if p(last) then [last] else []);
    var i, j :| 0 <= i < j < |r| && q(r[i]) && q(r[j]) && key(r[i]) == key(r[j]);
    if j < |f| {
      assert r[i] == f[i] && r[j] == f[j];
      FilterRepeatedOnlyFromInput(init, p, q, key);
      RepeatedBothExtend(xs, p, q, key);
    } else {
      assert r[j] == last && p(last) && r[i] == f[i];
      RepeatedBothWithLast(xs, p, q, key, f[i]);
    }
  }

  lemma RepeatedBothExtend<T, K>(xs: seq<T>, p: T -> bool, q: T -> bool, key: T -> K)
    requires |xs| > 0 && RepeatedAmongBoth(xs[..|xs| - 1], p, q, key)
    ensures RepeatedAmongBoth(xs, p, q, key)
  {
    var init := xs[..|xs| - 1];
    var a, b :| 0 <= a < b < |init| && p(init[a]) && q(init[a]) && p(init[b]) && q(init[b]) && key(init[a]) == key(init[b]);
    assert xs[a] == init[a] && xs[b] == init[b];
  }

  lemma RepeatedBothWithLast<T, K>(xs: seq<T>, p: T -> bool, q: T -> bool, key: T -> K, x: T)
    requires |xs| > 0 && x in Filter(xs[..|xs| - 1], p) && q(x)
    requires p(xs[|xs| - 1]) && q(xs[|xs| - 1]) && key(x) == key(xs[|xs| - 1])
    ensures RepeatedAmongBoth(xs, p, q, key)
  {
    var init := xs[..|xs| - 1];
    FilterMembership(init, p, x);
    var k :| 0 <= k < |init| && init[k] == x;
    assert xs[k] == init[k];
  }

  lemma {:induction false} FilterRepeatedKept<T, K>(xs: seq<T>, p: T -> bool, q: T -> bool, key: T -> K)
    requires RepeatedAmongBoth(xs, p, q, key)
    ensures RepeatedAmong(Filter(xs, p), q, key)
  {
    var n := |xs| - 1;
    var i, j :| 0 <= i < j < |xs| && p(xs[i]) && q(xs[i]) && p(xs[j]) && q(xs[j]) && key(xs[i]) == key(xs[j]);
    if j < n {
      RepeatedBothInPrefix(xs, p, q, key, i, j);
      FilterRepeatedKept(xs[..n], p, q, key);
      RepeatedFilterExtend(xs, p, q, key);
    } else {
      RepeatedFilterWithLast(xs, p, q, key, i);
    }
  }

  lemma RepeatedFilterExtend<T, K>(xs: seq<T>, p: T -> bool, q: T -> bool, key: T -> K)
    requires |xs| > 0 && RepeatedAmong(Filter(xs[..|xs| - 1], p), q, key)
    ensures RepeatedAmong(Filter(xs, p), q, key)
  {
    var last := xs[|xs| - 1];
    RepeatedAmongExtend(Filter(xs[..|xs| - 1], p), if p(last) then [last] else [], q, key);
  }

  lemma RepeatedFilterWithLast<T, K>(xs: seq<T>, p: T -> bool, q: T -> bool, key: T -> K, i: nat)
    requires i < |xs| - 1 && p(xs[i]) && q(xs[i])
    requires p(xs[|xs| - 1]) && q(xs[|xs| - 1]) && key(xs[i]) == key(xs[|xs| - 1])
    ensures RepeatedAmong(Filter(xs, p), q, key)
  {
    var init, last := xs[..|xs| - 1], xs[|xs| - 1];
    assert xs[i] == init[i];
    FilterMembership(init, p, xs[i]);
    RepeatedWithLast(Filter(init, p), last, xs[i], q, key);
  }

  lemma RepeatedBothInPrefix<T, K>(xs: seq<T>, p: T -> bool, q: T -> bool, key: T -> K, i: nat, j: nat)
    requires i < j < |xs| - 1 && p(xs[i]) && q(xs[i]) && p(xs[j]) && q(xs[j]) && key(xs[i]) == key(xs[j])
    ensures RepeatedAmongBoth(xs[..|xs| - 1], p, q, key)
  {
    var init := xs[..|xs| - 1];
    assert init[i] == xs[i] && init[j] == xs[j];
  }

  lemma RepeatedAmongExtend<T, K>(f: seq<T>, g: seq<T>, q: T -> bool, key: T -> K)
    requires RepeatedAmong(f, q, key)
    ensures RepeatedAmong(f + g, q, key)
  {
    var a, b :| 0 <= a < b < |f| && q(f[a]) && q(f[b]) && key(f[a]) == key(f[b]);
    assert (f + g)[a] == f[a] && (f + g)[b] == f[b];
  }

  lemma RepeatedWithLast<T, K>(f: seq<T>, last: T, x: T, q: T -> bool, key: T -> K)
    requires x in f && q(x) && q(last) && key(x) == key(last)
    ensures RepeatedAmong(f + [last], q, key)
  {
    var a :| 0 <= a < |f| && f[a] == x;
    assert (f + [last])[a] == x && (f + [last])[|f|] == last;
  }

  /** `r` can be obtained from `xs` by deleting elements (order is kept). */
  predicate IsSubsequence<T(==)>(r: seq<T>, xs: seq<T>)
    decreases |xs|
  {
    if |r| == 0 then true
    else if |xs| == 0 then false
    else if r[|r| - 1] == xs[|xs| - 1] then IsSubsequence(r[..|r| - 1], xs[..|xs| - 1])
    else IsSubsequence(r, xs[..|xs| - 1])
  }

  lemma {:induction false} SubsequenceDropLast<T>(r: seq<T>, xs: seq<T>)
    requires |r| > 0 && IsSubsequence(r, xs)
    ensures IsSubsequence(r[..|r| - 1], xs)
    decreases |xs|, 0
  {
    var init, last := xs[..|xs| - 1], xs[|xs| - 1];
    assert init + [last] == xs;
    if r[|r| - 1] == last {
      SubsequenceExtend(r[..|r| - 1], init, last);
    } else {
      SubsequenceDropLast(r, init);
      SubsequenceExtend(r[..|r| - 1], init, last);
    }
  }

  /** Appending to the larger sequence keeps a subsequence a subsequence. */
  lemma {:induction false} SubsequenceExtend<T>(r: seq<T>, xs: seq<T>, y: T)
    requires IsSubsequence(r, xs)
    ensures IsSubsequence(r, xs + [y])
    decreases |xs|, 1
  {
    var ys := xs + [y];
    assert ys[..|ys| - 1] == xs;
    if |r| > 0 && r[|r| - 1] == y {
      SubsequenceDropLast(r, xs);
    }
  }

  /** A subsequence of all but the last element is a subsequence of the whole. */
  lemma SubsequenceOfPrefix<T>(r: seq<T>, xs: seq<T>)
    requires |xs| > 0 && IsSubsequence(r, xs[..|xs| - 1])
    ensures IsSubsequence(r, xs)
  {
    SubsequenceExtend(r, xs[..|xs| - 1], xs[|xs| - 1]);
    assert xs[..|xs| - 1] + [xs[|xs| - 1]] == xs;
  }

  /** A subsequence of a subsequence is a subsequence. */
  lemma {:induction false} SubsequenceTransitive<T>(a: seq<T>, b: seq<T>, c: seq<T>)
    requires IsSubsequence(a, b) && IsSubsequence(b, c)
    ensures IsSubsequence(a, c)
    decreases |c|
  {
    if |a| > 0 {
      var b', c' := b[..|b| - 1], c[..|c| - 1];
      if b[|b| - 1] == c[|c| - 1] {
        if a[|a| - 1] == b[|b| - 1] {
          SubsequenceTransitive(a[..|a| - 1], b', c');
        } else {
          SubsequenceTransitive(a, b', c');
        }
      } else {
        SubsequenceTransitive(a, b, c');
        if a[|a| - 1] == c[|c| - 1] {
          SubsequenceDropLast(a, c');
        }
      }
    }
  }

  lemma {:induction false} FilterIsSubsequence<T>(xs: seq<T>, p: T -> bool)
    ensures IsSubsequence(Filter(xs, p), xs)
  {
    if |xs| > 0 {
      var init, last := xs[..|xs| - 1], xs[|xs| - 1];
      FilterIsSubsequence(init, p);
      var f := Filter(xs, p);
      if p(last) {
        assert f[..|f| - 1] == Filter(init, p);
      } else {
        assert Filter(xs, p) == Filter(init, p);
        SubsequenceOfPrefix(Filter(init, p), xs);
      }
    }
  }

  // ---------------------------------------------------------------------------
  // distinct (services/Helpers.ts:11-17)
  // ---------------------------------------------------------------------------

  predicate HasKey<T, K(==)>(p: seq<T>, key: T -> K, k: K) {
    exists i :: 0 <= i < |p| && key(p[i]) == k
  }

  predicate NoDuplicateKeys<T, K(==)>(p: seq<T>, key: T -> K) {
    forall i, j :: 0 <= i < j < |p| ==> key(p[i]) != key(p[j])
  }

  /** `xs[i]` is the first element of `xs` carrying its key. */
  predicate IsFirstOccurrence<T, K(==)>(xs: seq<T>, key: T -> K, i: nat)
    requires i < |xs|
  {
    forall j :: 0 <= j < i ==> key(xs[j]) != key(xs[i])
  }

  lemma HasKeyAppend<T, K>(s: seq<T>, y: T, key: T -> K, k: K)
    ensures HasKey(s + [y], key, k) <==> HasKey(s, key, k) || key(y) == k
  {
    if HasKey(s + [y], key, k) {
      var i :| 0 <= i < |s + [y]| && key((s + [y])[i]) == k;
      if i < |s| { assert key(s[i]) == k; }
    }
    if HasKey(s, key, k) {
      var i :| 0 <= i < |s| && key(s[i]) == k;
      assert key((s + [y])[i]) == k;
    }
    if key(y) == k {
      assert key((s + [y])[|s|]) == k;
    }
  }

  lemma HasKeyInKeySet<T, K>(s: seq<T>, key: T -> K, k: K)
    ensures HasKey(s, key, k) <==> k in (set x | x in s :: key(x))
  {
    if HasKey(s, key, k) {
      var i :| 0 <= i < |s| && key(s[i]) == k;
      assert s[i] in s;
    }
  }

  /** What `distinct` computes: the input, keeping only the first element for each key. */
  function DistinctBy<T, K(==)>(xs: seq<T>, key: T -> K): seq<T>
  {
    if |xs| == 0 then []
    else
      var p := DistinctBy(xs[..|xs| - 1], key);
      if HasKey(p, key, key(xs[|xs| - 1])) then p else p + [xs[|xs| - 1]]
  }

  /** The kept elements are pairwise different in their key and each of them is
      the first occurrence of its key in the input; every key of the input is kept. */
  lemma {:induction false} DistinctByProperties<T, K>(xs: seq<T>, key: T -> K)
    ensures NoDuplicateKeys(DistinctBy(xs, key), key)
    ensures forall k :: HasKey(DistinctBy(xs, key), key, k) <==> HasKey(xs, key, k)
    ensures forall j :: 0 <= j < |DistinctBy(xs, key)| ==>
              exists i :: 0 <= i < |xs| && xs[i] == DistinctBy(xs, key)[j] && IsFirstOccurrence(xs, key, i)
    ensures IsSubsequence(DistinctBy(xs, key), xs)
  {
    if |xs| > 0 {
      var init, last := xs[..|xs| - 1], xs[|xs| - 1];
      DistinctByProperties(init, key);
      var p := DistinctBy(init, key);
      var r := DistinctBy(xs, key);
      assert init + [last] == xs;
      forall k ensures HasKey(r, key, k) <==> HasKey(xs, key, k) {
        HasKeyAppend(init, last, key, k);
        HasKeyAppend(p, last, key, k);
      }
      forall j | 0 <= j < |r|
        ensures exists i :: 0 <= i < |xs| && xs[i] == r[j] && IsFirstOccurrence(xs, key, i)
      {
        if j < |p| {
          var i :| 0 <= i < |init| && init[i] == p[j] && IsFirstOccurrence(init, key, i);
          assert xs[i] == r[j] && IsFirstOccurrence(xs, key, i);
        } else {
          assert r[j] == last && !HasKey(p, key, key(last));
          assert !HasKey(init, key, key(last));
          forall i | 0 <= i < |xs| - 1 ensures key(xs[i]) != key(last) {
            assert xs[i] == init[i];
          }
        }
      }
      SubsequenceOfPrefix(p, xs);
      if !HasKey(p, key, key(last)) {
        assert r[..|r| - 1] == p;
      }
    }
  }

  /** `distinct(arr, property)`: a loop that pushes every element whose key is not
      yet among the results. */
  method Distinct<T, K(==)>(arr: seq<T>, key: T -> K) returns (results: seq<T>)
    ensures results == DistinctBy(arr, key)
    ensures NoDuplicateKeys(results, key)
    ensures forall x :: x in arr ==> HasKey(results, key, key(x))
    ensures forall x :: x in results ==> x in arr
  {
    results := [];
    for i := 0 to |arr|
      invariant results == DistinctBy(arr[..i], key)
    {
      assert arr[..i + 1][..i] == arr[..i];
      if !HasKey(results, key, key(arr[i])) {
        results := results + [arr[i]];
      }
    }
    assert arr[..|arr|] == arr;
    DistinctByProperties(arr, key);
    forall x | x in arr ensures HasKey(results, key, key(x)) {
      var i :| 0 <= i < |arr| && arr[i] == x;
      assert HasKey(arr, key, key(x));
    }
    forall x | x in results ensures x in arr {
      var j :| 0 <= j < |results| && results[j] == x;
    }
  }

  // ---------------------------------------------------------------------------
  // groupBy (services/Helpers.ts:3-8): a dictionary of buckets
  // ---------------------------------------------------------------------------

  /** The elements of `xs` whose key is `k`, in input order. */
  function Bucket<T, K(==)>(xs: seq<T>, key: T -> K, k: K): (r: seq<T>)
    ensures forall x :: x in r ==> x in xs && key(x) == k
    ensures |r| <= |xs|
  {
    if |xs| == 0 then []
    else Bucket(xs[..|xs| - 1], key, k) + (if key(xs[|xs| - 1]) == k then [xs[|xs| - 1]] else [])
  }

  lemma {:induction false} BucketOfAbsentKey<T, K>(xs: seq<T>, key: T -> K, k: K)
    requires !HasKey(xs, key, k)
    ensures Bucket(xs, key, k) == []
  {
    if |xs| > 0 {
      var init := xs[..|xs| - 1];
      assert init + [xs[|xs| - 1]] == xs;
      HasKeyAppend(init, xs[|xs| - 1], key, k);
      BucketOfAbsentKey(init, key, k);
    }
  }

  /** When every element has key `k`, the bucket of `k` is the whole sequence. */
  lemma {:induction false} BucketKeepsAll<T, K>(xs: seq<T>, key: T -> K, k: K)
    requires forall i :: 0 <= i < |xs| ==> key(xs[i]) == k
    ensures Bucket(xs, key, k) == xs
  {
    if |xs| > 0 {
      BucketKeepsAll(xs[..|xs| - 1], key, k);
      SnocLast(xs);
    }
  }

  lemma {:induction false} BucketMembership<T, K>(xs: seq<T>, key: T -> K, k: K, x: T)
    ensures x in Bucket(xs, key, k) <==> x in xs && key(x) == k
  {
    if |xs| > 0 {
      BucketMembership(xs[..|xs| - 1], key, k, x);
      assert xs == xs[..|xs| - 1] + [xs[|xs| - 1]];
    }
  }

  lemma {:induction false} BucketIsSubsequence<T, K>(xs: seq<T>, key: T -> K, k: K)
    ensures IsSubsequence(Bucket(xs, key, k), xs)
  {
    if |xs| > 0 {
      var init, last := xs[..|xs| - 1], xs[|xs| - 1];
      BucketIsSubsequence(init, key, k);
      var b := Bucket(xs, key, k);
      if key(last) == k {
        assert b[..|b| - 1] == Bucket(init, key, k);
      } else {
        assert b == Bucket(init, key, k);
        SubsequenceOfPrefix(Bucket(init, key, k), xs);
      }
    }
  }

  /** `groupBy(xs, key)`: every key of the input maps to its bucket, built by
      pushing each element onto the bucket of its key. */
  method GroupBy<T, K(==)>(xs: seq<T>, key: T -> K) returns (rv: map<K, seq<T>>)
    ensures rv.Keys == set x | x in xs :: key(x)
    ensures forall k :: k in rv ==> rv[k] == Bucket(xs, key, k) && |rv[k]| > 0
  {
    rv := map[];
    for i := 0 to |xs|
      invariant rv.Keys == set x | x in xs[..i] :: key(x)
      invariant forall k :: k in rv ==> rv[k] == Bucket(xs[..i], key, k) && |rv[k]| > 0
    {
      var k := key(xs[i]);
      var prefix := xs[..i];
      assert xs[..i + 1] == prefix + [xs[i]];
      assert xs[..i + 1][..i] == prefix;
      if k !in rv {
        HasKeyInKeySet(prefix, key, k);
        BucketOfAbsentKey(prefix, key, k);
      }
      rv := rv[k := (if k in rv then rv[k] else []) + [xs[i]]];
    }
    assert xs[..|xs|] == xs;
  }

  // ---------------------------------------------------------------------------
  // lodash groupBy read back through Object.keys, and groupMap
  // (services/Helpers.ts:72-77): groups in order of first appearance
  // ---------------------------------------------------------------------------

  /** The distinct keys of `xs`, in order of first appearance. */
  function KeyOrder<T, K(==)>(xs: seq<T>, key: T -> K): seq<K>
  {
    if |xs| == 0 then []
    else
      var ks := KeyOrder(xs[..|xs| - 1], key);
      if key(xs[|xs| - 1]) in ks then ks else ks + [key(xs[|xs| - 1])]
  }

  lemma {:induction false} KeyOrderProperties<T, K>(xs: seq<T>, key: T -> K)
    ensures forall i, j :: 0 <= i < j < |KeyOrder(xs, key)| ==> KeyOrder(xs, key)[i] != KeyOrder(xs, key)[j]
    ensures forall k :: k in KeyOrder(xs, key) <==> HasKey(xs, key, k)
  {
    if |xs| > 0 {
      var init := xs[..|xs| - 1];
      KeyOrderProperties(init, key);
      forall k ensures HasKey(xs, key, k) <==> (HasKey(init, key, k) || key(xs[|xs| - 1]) == k) {
        if HasKey(xs, key, k) {
          var i :| 0 <= i < |xs| && key(xs[i]) == k;
          if i < |xs| - 1 { assert key(init[i]) == k; }
        }
        if HasKey(init, key, k) {
          var i :| 0 <= i < |init| && key(init[i]) == k;
          assert key(xs[i]) == k;
        }
      }
    }
  }

  /** `_.groupBy(xs, key)` visited in `Object.keys` order: one group per distinct key. */
  function Groups<T, K(==)>(xs: seq<T>, key: T -> K): (gs: seq<seq<T>>)
    ensures |gs| == |KeyOrder(xs, key)|
  {
    var ks := KeyOrder(xs, key);
    seq(|ks|, j requires 0 <= j < |ks| => Bucket(xs, key, ks[j]))
  }

  /** `groupMap(obj, keySelector, iteratee)`. */
  function GroupMap<T, K(==), U>(xs: seq<T>, key: T -> K, f: (seq<T>, K) -> U): (r: seq<U>)
    ensures |r| == |KeyOrder(xs, key)|
  {
    var ks := KeyOrder(xs, key);
    seq(|ks|, j requires 0 <= j < |ks| => f(Bucket(xs, key, ks[j]), ks[j]))
  }

  /** Every element lands in exactly one group: the one for its key. Each group
      is non-empty, keeps input order, and holds only elements of its key. */
  lemma GroupsPartition<T, K>(xs: seq<T>, key: T -> K)
    ensures forall j, x :: 0 <= j < |Groups(xs, key)| ==>
              (x in Groups(xs, key)[j] <==> x in xs && key(x) == KeyOrder(xs, key)[j])
    ensures forall x :: x in xs ==> exists j :: 0 <= j < |Groups(xs, key)| && x in Groups(xs, key)[j]
    ensures forall x, i, j :: 0 <= i < j < |Groups(xs, key)| && x in Groups(xs, key)[i] ==> x !in Groups(xs, key)[j]
    ensures forall j :: 0 <= j < |Groups(xs, key)| ==>
              |Groups(xs, key)[j]| > 0 && IsSubsequence(Groups(xs, key)[j], xs)
  {
    var ks := KeyOrder(xs, key);
    var gs := Groups(xs, key);
    KeyOrderProperties(xs, key);
    forall j, x | 0 <= j < |gs| ensures x in gs[j] <==> x in xs && key(x) == ks[j] {
      BucketMembership(xs, key, ks[j], x);
    }
    forall x | x in xs ensures exists j :: 0 <= j < |gs| && x in gs[j] {
      var i :| 0 <= i < |xs| && xs[i] == x;
      assert HasKey(xs, key, key(x));
      var j :| 0 <= j < |ks| && ks[j] == key(x);
      BucketMembership(xs, key, ks[j], x);
    }
    forall j | 0 <= j < |gs| ensures |gs[j]| > 0 && IsSubsequence(gs[j], xs) {
      assert HasKey(xs, key, ks[j]);
      var i :| 0 <= i < |xs| && key(xs[i]) == ks[j];
      BucketMembership(xs, key, ks[j], xs[i]);
      BucketIsSubsequence(xs, key, ks[j]);
    }
  }

  /** Total size of the buckets of the keys `ks`. */
  function BucketSizes<T, K(==)>(xs: seq<T>, key: T -> K, ks: seq<K>): nat
  {
    if |ks| == 0 then 0 else BucketSizes(xs, key, ks[..|ks| - 1]) + |Bucket(xs, key, ks[|ks| - 1])|
  }

  lemma {:induction false} BucketSizesDropLast<T, K>(xs: seq<T>, key: T -> K, ks: seq<K>)
    requires |xs| > 0
    requires forall i, j :: 0 <= i < j < |ks| ==> ks[i] != ks[j]
    ensures BucketSizes(xs, key, ks) == BucketSizes(xs[..|xs| - 1], key, ks) + (if key(xs[|xs| - 1]) in ks then 1 else 0)
  {
    if |ks| > 0 {
      BucketSizesDropLast(xs, key, ks[..|ks| - 1]);
      assert key(xs[|xs| - 1]) in ks <==> key(xs[|xs| - 1]) in ks[..|ks| - 1] || key(xs[|xs| - 1]) == ks[|ks| - 1];
    }
  }

  /** The groups together hold exactly as many elements as the input. */
  lemma {:induction false} GroupsSizes<T, K>(xs: seq<T>, key: T -> K)
    ensures BucketSizes(xs, key, KeyOrder(xs, key)) == |xs|
  {
    if |xs| > 0 {
      GroupsSizes(xs[..|xs| - 1], key);
      GroupsSizesStep(xs, key);
    }
  }

  lemma GroupsSizesStep<T, K>(xs: seq<T>, key: T -> K)
    requires |xs| > 0
    ensures BucketSizes(xs, key, KeyOrder(xs, key)) == BucketSizes(xs[..|xs| - 1], key, KeyOrder(xs[..|xs| - 1], key)) + 1
  {
    var init, k := xs[..|xs| - 1], key(xs[|xs| - 1]);
    var ks := KeyOrder(init, key);
    KeyOrderProperties(init, key);
    BucketSizesDropLast(xs, key, ks);
    if k !in ks {
      assert (ks + [k])[..|ks|] == ks;
      assert !HasKey(init, key, k);
      BucketOfAbsentKey(init, key, k);
    }
  }

  /** The summed weight of some elements. */
  function WeightSum<T>(xs: seq<T>, weight: T -> nat): nat
  {
    if |xs| == 0 then 0 else WeightSum(xs[..|xs| - 1], weight) + weight(xs[|xs| - 1])
  }

  /** The summed weights of the buckets of the keys `ks`. */
  function BucketWeights<T, K(==)>(xs: seq<T>, key: T -> K, ks: seq<K>, weight: T -> nat): nat
  {
    if |ks| == 0 then 0 else BucketWeights(xs, key, ks[..|ks| - 1], weight) + WeightSum(Bucket(xs, key, ks[|ks| - 1]), weight)
  }

  lemma {:induction false} BucketWeightsDropLast<T, K>(xs: seq<T>, key: T -> K, ks: seq<K>, weight: T -> nat)
    requires |xs| > 0
    requires forall i, j :: 0 <= i < j < |ks| ==> ks[i] != ks[j]
    ensures BucketWeights(xs, key, ks, weight)
         == BucketWeights(xs[..|xs| - 1], key, ks, weight) + (if key(xs[|xs| - 1]) in ks then weight(xs[|xs| - 1]) else 0)
  {
    if |ks| > 0 {
      var init, x := xs[..|xs| - 1], xs[|xs| - 1];
      BucketWeightsDropLast(xs, key, ks[..|ks| - 1], weight);
      var b := Bucket(init, key, ks[|ks| - 1]);
      if key(x) == ks[|ks| - 1] {
        assert (b + [x])[..|b|] == b;
      } else {
        assert b + [] == b;
      }
      assert key(x) in ks <==> key(x) in ks[..|ks| - 1] || key(x) == ks[|ks| - 1];
    }
  }

  /** Grouping loses no weight: the groups' weights add up to the input's. */
  lemma {:induction false} GroupsWeights<T, K>(xs: seq<T>, key: T -> K, weight: T -> nat)
    ensures BucketWeights(xs, key, KeyOrder(xs, key), weight) == WeightSum(xs, weight)
  {
    if |xs| > 0 {
      GroupsWeights(xs[..|xs| - 1], key, weight);
      GroupsWeightsStep(xs, key, weight);
    }
  }

  lemma GroupsWeightsStep<T, K>(xs: seq<T>, key: T -> K, weight: T -> nat)
    requires |xs| > 0
    ensures BucketWeights(xs, key, KeyOrder(xs, key), weight)
         == BucketWeights(xs[..|xs| - 1], key, KeyOrder(xs[..|xs| - 1], key), weight) + weight(xs[|xs| - 1])
  {
    var init, last := xs[..|xs| - 1], xs[|xs| - 1];
    var ks, k := KeyOrder(init, key), key(last);
    KeyOrderProperties(init, key);
    BucketWeightsDropLast(xs, key, ks, weight);
    if k !in ks {
      assert (ks + [k])[..|ks|] == ks;
      assert !HasKey(init, key, k);
      BucketOfAbsentKey(init, key, k);
      SingletonWeight(Bucket(xs, key, k), weight);
    }
  }

  lemma SingletonWeight<T>(xs: seq<T>, weight: T -> nat)
    requires |xs| == 1
    ensures WeightSum(xs, weight) == weight(xs[0])
  {
    assert xs[..0] == [];
  }

  // ---------------------------------------------------------------------------
  // intersperse (services/Helpers.ts:79-82)
  // ---------------------------------------------------------------------------

  /** `arr.reduce((a, v) => a.length ? [...a, sep, v] : [v], [])`. */
  function Intersperse<T>(arr: seq<T>, sep: T): (r: seq<T>)
    ensures forall x :: x in r ==> x in arr || x == sep
  {
    if |arr| == 0 then []
    else
      var a := Intersperse(arr[..|arr| - 1], sep);
      if |a| > 0 then a + [sep, arr[|arr| - 1]] else [arr[|arr| - 1]]
  }

  /** The originals sit at the even positions and the separator at the odd ones. */
  lemma {:induction false} IntersperseShape<T>(arr: seq<T>, sep: T)
    ensures |arr| == 0 ==> Intersperse(arr, sep) == []
    ensures |arr| > 0 ==> |Intersperse(arr, sep)| == 2 * |arr| - 1
    ensures forall i :: 0 <= i < |arr| ==> Intersperse(arr, sep)[2 * i] == arr[i]
    ensures forall i :: 0 <= i < |arr| - 1 ==> Intersperse(arr, sep)[2 * i + 1] == sep
  {
    if |arr| > 0 {
      var init := arr[..|arr| - 1];
      IntersperseShape(init, sep);
      assert forall i :: 0 <= i < |init| ==> init[i] == arr[i];
    }
  }

  // ---------------------------------------------------------------------------
  // lodash sortBy on an integer key: a stable insertion sort
  // ---------------------------------------------------------------------------

  predicate SortedBy<T>(s: seq<T>, key: T -> int) {
    forall i, j :: 0 <= i < j < |s| ==> key(s[i]) <= key(s[j])
  }

  function InsertBy<T>(x: T, s: seq<T>, key: T -> int): (r: seq<T>)
    ensures |r| == |s| + 1
  {
    if |s| == 0 || key(x) <= key(s[0]) then [x] + s else [s[0]] + InsertBy(x, s[1..], key)
  }

  lemma {:induction false} InsertByMultiset<T>(x: T, s: seq<T>, key: T -> int)
    ensures multiset(InsertBy(x, s, key)) == multiset(s) + multiset{x}
  {
    if |s| > 0 && key(x) > key(s[0]) {
      assert s == [s[0]] + s[1..];
      InsertByMultiset(x, s[1..], key);
    }
  }

  /** Inserting keeps every key at or above a common lower bound. */
  lemma {:induction false} InsertByLowerBound<T>(x: T, s: seq<T>, key: T -> int, b: int)
    requires key(x) >= b
    requires forall i :: 0 <= i < |s| ==> key(s[i]) >= b
    ensures forall i :: 0 <= i < |InsertBy(x, s, key)| ==> key(InsertBy(x, s, key)[i]) >= b
  {
    if |s| > 0 && key(x) > key(s[0]) {
      InsertByLowerBound(x, s[1..], key, b);
    }
  }

  lemma {:induction false} InsertBySorted<T>(x: T, s: seq<T>, key: T -> int)
    requires SortedBy(s, key)
    ensures SortedBy(InsertBy(x, s, key), key)
  {
    if |s| > 0 && key(x) > key(s[0]) {
      var tail := s[1..];
      InsertBySorted(x, tail, key);
      InsertByLowerBound(x, tail, key, key(s[0]));
      var rest := InsertBy(x, tail, key);
      var r := InsertBy(x, s, key);
      assert r == [s[0]] + rest;
      forall i, j | 0 <= i < j < |r| ensures key(r[i]) <= key(r[j]) {
        assert r[j] == rest[j - 1];
        if i > 0 {
          assert r[i] == rest[i - 1];
        }
      }
    }
  }

  /** `_.sortBy(s, key)`. */
  function SortBy<T>(s: seq<T>, key: T -> int): (r: seq<T>)
    ensures |r| == |s|
  {
    if |s| == 0 then [] else InsertBy(s[0], SortBy(s[1..], key), key)
  }

  /** The elements of `s` whose key is `k`, in order. */
  function WithKey<T>(s: seq<T>, key: T -> int, k: int): seq<T>
  {
    Filter(s, x => key(x) == k)
  }

  lemma WithKeyCons<T>(x: T, s: seq<T>, key: T -> int, k: int)
    ensures WithKey([x] + s, key, k) == (if key(x) == k then [x] else []) + WithKey(s, key, k)
  {
    FilterConcat([x], s, y => key(y) == k);
    assert [x][..0] == [];
  }

  /** Inserting `x` puts it before every element of its own key. */
  lemma {:induction false} InsertByStable<T>(x: T, s: seq<T>, key: T -> int, k: int)
    ensures WithKey(InsertBy(x, s, key), key, k) == (if key(x) == k then [x] else []) + WithKey(s, key, k)
  {
    if |s| == 0 || key(x) <= key(s[0]) {
      WithKeyCons(x, s, key, k);
    } else {
      InsertByStable(x, s[1..], key, k);
      WithKeyCons(s[0], InsertBy(x, s[1..], key), key, k);
      WithKeyCons(s[0], s[1..], key, k);
      assert [s[0]] + s[1..] == s;
    }
  }

  /** The result is ordered by the key and is a permutation of the input; the
      sort is stable: elements with equal keys keep their input order. */
  lemma {:induction false} SortByProperties<T>(s: seq<T>, key: T -> int)
    ensures SortedBy(SortBy(s, key), key)
    ensures multiset(SortBy(s, key)) == multiset(s)
    ensures forall k :: WithKey(SortBy(s, key), key, k) == WithKey(s, key, k)
  {
    if |s| > 0 {
      SortByProperties(s[1..], key);
      InsertBySorted(s[0], SortBy(s[1..], key), key);
      InsertByMultiset(s[0], SortBy(s[1..], key), key);
      assert s == [s[0]] + s[1..];
      forall k ensures WithKey(SortBy(s, key), key, k) == WithKey(s, key, k) {
        InsertByStable(s[0], SortBy(s[1..], key), key, k);
        WithKeyCons(s[0], s[1..], key, k);
      }
    }
  }

  // ---------------------------------------------------------------------------
  // Game-system identifiers (services/Helpers.ts:27-62)
  // ---------------------------------------------------------------------------

  const GameSystems: seq<string> := ["gf", "gf2", "ggm", "gff", "gff1", "gff3", "aof", "aofs", "aofr"]

  /** The URL slug of a game system; `None` where the source's switch falls through. */
  function GameSystemToSlug(gameSystem: string): (r: Option<string>)
    ensures r.Some? <==> gameSystem in GameSystems
  {
    match gameSystem
    case "gf" => Some("grimdark-future")
    case "gf2" => Some("grimdark-future-2")
    case "ggm" => Some("grimdark-future-gopramopra")
    case "gff" => Some("grimdark-future-firefight")
    case "gff1" => Some("grimdark-future-firefight-1")
    case "gff3" => Some("grimdark-future-firefight-3")
    case "aof" => Some("age-of-fantasy")
    case "aofs" => Some("age-of-fantasy-skirmish")
    case "aofr" => Some("age-of-fantasy-regiments")
    case _ => None
  }

  /** The numeric id the rules service uses for a game system. */
  function GameSystemToEnum(gameSystem: string): (r: Option<nat>)
    ensures r.Some? <==> gameSystem in GameSystems
  {
    match gameSystem
    case "gf" => Some(2)
    case "gf2" => Some(22)
    case "ggm" => Some(20)
    case "gff" => Some(3)
    case "gff1" => Some(31)
    case "gff3" => Some(33)
    case "aof" => Some(4)
    case "aofs" => Some(5)
    case "aofr" => Some(6)
    case _ => None
  }

  /** Different game systems never share a slug or a numeric id. */
  lemma GameSystemMapsInjective(a: string, b: string)
    requires a in GameSystems && b in GameSystems && a != b
    ensures GameSystemToSlug(a) != GameSystemToSlug(b)
    ensures GameSystemToEnum(a) != GameSystemToEnum(b)
  {
    SlugsDistinct(a, b);
    EnumsDistinct(a, b);
  }

  lemma SlugsDistinct(a: string, b: string)
    requires a in GameSystems && b in GameSystems && a != b
    ensures GameSystemToSlug(a) != GameSystemToSlug(b)
  {
    SlugNamesSystem(a);
    SlugNamesSystem(b);
  }

  /** Reads a slug back as its game system (a proof device). */
  function SystemOfSlug(slug: string): string
  {
    match slug
    case "grimdark-future" => "gf"
    case "grimdark-future-2" => "gf2"
    case "grimdark-future-gopramopra" => "ggm"
    case "grimdark-future-firefight" => "gff"
    case "grimdark-future-firefight-1" => "gff1"
    case "grimdark-future-firefight-3" => "gff3"
    case "age-of-fantasy" => "aof"
    case "age-of-fantasy-skirmish" => "aofs"
    case "age-of-fantasy-regiments" => "aofr"
    case _ => ""
  }

  lemma SlugNamesSystem(a: string)
    requires a in GameSystems
    ensures SystemOfSlug(GameSystemToSlug(a).value) == a
  {
  }

  lemma EnumsDistinct(a: string, b: string)
    requires a in GameSystems && b in GameSystems && a != b
    ensures GameSystemToEnum(a) != GameSystemToEnum(b)
  {
  }
}
