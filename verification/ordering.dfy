/**
 Sorting by a real-valued key and order statistics over real scores: the model of
 `Tensor.sort` (a permutation whose keys are in order) and of `torch.kthvalue` (the k-th smallest
 value, counted with multiplicity).
 */
module Ordering {

  /** Keys are non-decreasing along `s`. */
  ghost predicate SortedBy<T>(s: seq<T>, key: T -> real) {
    forall a, b :: 0 <= a < b < |s| ==> key(s[a]) <= key(s[b])
  }

  /** Places `x` into the key-sorted `s`. */
  function Insert<T>(x: T, s: seq<T>, key: T -> real): (r: seq<T>)
    requires SortedBy(s, key)
    ensures SortedBy(r, key)
    ensures multiset(r) == multiset(s) + multiset{x}
    ensures |r| == |s| + 1
    ensures r[0] == x || (|s| > 0 && r[0] == s[0])
    decreases |s|
  {
    if |s| == 0 then [x]
    else if key(x) <= key(s[0]) then [x] + s
    else
      var tail := Insert(x, s[1..], key);
      assert s == [s[0]] + s[1..];
      ConsSorted(s[0], tail, key);
      [s[0]] + tail
  }

  /** Putting an entry no larger than the head in front of a sorted sequence keeps it sorted. */
  lemma ConsSorted<T>(x: T, t: seq<T>, key: T -> real)
    requires SortedBy(t, key)
    requires |t| > 0 ==> key(x) <= key(t[0])
    ensures SortedBy([x] + t, key)
  {
    var r := [x] + t;
    forall a, b | 0 <= a < b < |r|
      ensures key(r[a]) <= key(r[b])
    {
      assert r[b] == t[b - 1];
      if a > 0 {
        assert r[a] == t[a - 1];
      } else {
        assert key(t[0]) <= key(t[b - 1]) || b == 1;
      }
    }
  }

  /** Insertion sort by ascending key. The result is a permutation of `s` in key order. */
  function Sort<T>(s: seq<T>, key: T -> real): (r: seq<T>)
    ensures SortedBy(r, key)
    ensures multiset(r) == multiset(s)
    decreases |s|
  {
    if |s| == 0 then []
    else
      assert s == [s[0]] + s[1..];
      Insert(s[0], Sort(s[1..], key), key)
  }

  /** The identity key, for sorting plain scores. */
  function Id(x: real): real { x }

  /**
   Number of entries below `c` (`orEqual` false) or at most `c` (`orEqual` true),
   counted with multiplicity. This is the threshold count the order statistic is defined by,
   over plain scores; it is kept apart from the predicate count of `Selection` because the
   sorting proofs need its own concatenation and permutation lemmas. The two are related where
   they meet, in the post-filter's cap.
   */
  function CountUpTo(s: seq<real>, c: real, orEqual: bool): (n: nat)
    ensures n <= |s|
  {
    if |s| == 0 then 0
    else
      var x := s[|s| - 1];
      CountUpTo(s[..|s| - 1], c, orEqual) + (if x < c || (orEqual && x == c) then 1 else 0)
  }

  function CountBelow(s: seq<real>, c: real): nat { CountUpTo(s, c, false) }

  function CountAtMost(s: seq<real>, c: real): nat { CountUpTo(s, c, true) }

  /**
   `v` is a k-th smallest entry of `s`: fewer than `k` entries lie strictly below it and at
   least `k` entries lie at or below it. This is the order-statistic reading of `kthvalue`,
   independent of any sorting procedure.
   */
  ghost predicate IsKthSmallest(s: seq<real>, k: nat, v: real) {
    CountBelow(s, v) < k <= CountAtMost(s, v)
  }

  /** `torch.kthvalue(s, k)`: the k-th smallest entry (1-based), read off the ascending sort. */
  function KthSmallest(s: seq<real>, k: nat): (v: real)
    requires 1 <= k <= |s|
    ensures v in s
    ensures IsKthSmallest(s, k, v)
  {
    var sorted := Sort(s, Id);
    assert |sorted| == |multiset(sorted)| == |multiset(s)| == |s|;
    assert sorted[k - 1] in multiset(sorted);
    SortedOrderStatistic(sorted, k);
    CountPermutation(s, sorted, sorted[k - 1], false);
    CountPermutation(s, sorted, sorted[k - 1], true);
    sorted[k - 1]
  }

  lemma {:induction false} CountConcat(u: seq<real>, v: seq<real>, c: real, orEqual: bool)
    ensures CountUpTo(u + v, c, orEqual) == CountUpTo(u, c, orEqual) + CountUpTo(v, c, orEqual)
    decreases |v|
  {
    if |v| == 0 {
      assert u + v == u;
    } else {
      assert (u + v)[..|u + v| - 1] == u + v[..|v| - 1];
      assert (u + v)[|u + v| - 1] == v[|v| - 1];
      CountConcat(u, v[..|v| - 1], c, orEqual);
    }
  }

  /** Removing the entry at `p` lowers the count by exactly that entry's contribution. */
  lemma CountRemove(b: seq<real>, p: nat, c: real, orEqual: bool)
    requires p < |b|
    ensures CountUpTo(b, c, orEqual)
            == CountUpTo(b[..p] + b[p + 1..], c, orEqual) + CountUpTo([b[p]], c, orEqual)
  {
    assert b == b[..p] + [b[p]] + b[p + 1..];
    CountConcat(b[..p] + [b[p]], b[p + 1..], c, orEqual);
    CountConcat(b[..p], [b[p]], c, orEqual);
    CountConcat(b[..p], b[p + 1..], c, orEqual);
  }

  /** Taking the same entry out of two equal multisets leaves equal multisets. */
  lemma MultisetRemove(a: seq<real>, b: seq<real>, p: nat)
    requires multiset(a) == multiset(b) && |a| > 0
    requires p < |b| && b[p] == a[|a| - 1]
    ensures multiset(a[..|a| - 1]) == multiset(b[..p] + b[p + 1..])
  {
    var x := a[|a| - 1];
    assert a == a[..|a| - 1] + [x];
    assert b == b[..p] + [x] + b[p + 1..];
    assert multiset(b[..p] + b[p + 1..]) == multiset(b) - multiset{x};
  }

  /** Counts depend only on the multiset of entries, not on their order. */
  lemma {:induction false} CountPermutation(a: seq<real>, b: seq<real>, c: real, orEqual: bool)
    requires multiset(a) == multiset(b)
    ensures CountUpTo(a, c, orEqual) == CountUpTo(b, c, orEqual)
    decreases |a|
  {
    if |a| == 0 {
      assert |b| == |multiset(b)| == 0;
    } else {
      var x := a[|a| - 1];
      assert x in multiset(b);
      var p :| 0 <= p < |b| && b[p] == x;
      MultisetRemove(a, b, p);
      CountPermutation(a[..|a| - 1], b[..p] + b[p + 1..], c, orEqual);
      CountRemove(b, p, c, orEqual);
      assert CountUpTo(a, c, orEqual) == CountUpTo(a[..|a| - 1], c, orEqual) + CountUpTo([x], c, orEqual);
    }
  }

  /** When every entry is counted, the count is the length; when none is, it is zero. */
  lemma {:induction false} CountUniform(s: seq<real>, c: real, orEqual: bool)
    ensures (forall i :: 0 <= i < |s| ==> s[i] < c || (orEqual && s[i] == c))
              ==> CountUpTo(s, c, orEqual) == |s|
    ensures (forall i :: 0 <= i < |s| ==> !(s[i] < c || (orEqual && s[i] == c)))
              ==> CountUpTo(s, c, orEqual) == 0
    decreases |s|
  {
    if |s| > 0 {
      CountUniform(s[..|s| - 1], c, orEqual);
    }
  }

  /** In an ascending sequence fewer than `k` entries lie below the entry at position k-1. */
  lemma SortedCountBelow(t: seq<real>, k: nat)
    requires SortedBy(t, Id)
    requires 1 <= k <= |t|
    ensures CountBelow(t, t[k - 1]) < k
  {
    var v := t[k - 1];
    var lo, hi := t[..k - 1], t[k - 1..];
    assert t == lo + hi;
    CountConcat(lo, hi, v, false);
    forall i | 0 <= i < |hi|
      ensures !(hi[i] < v)
    {
      assert hi[i] == t[k - 1 + i];
      assert Id(t[k - 1]) <= Id(t[k - 1 + i]);
    }
    CountUniform(hi, v, false);
  }

  /** In an ascending sequence at least `k` entries lie at or below the entry at position k-1. */
  lemma SortedCountAtMost(t: seq<real>, k: nat)
    requires SortedBy(t, Id)
    requires 1 <= k <= |t|
    ensures k <= CountAtMost(t, t[k - 1])
  {
    var v := t[k - 1];
    var lo, hi := t[..k], t[k..];
    assert t == lo + hi;
    CountConcat(lo, hi, v, true);
    forall i | 0 <= i < |lo|
      ensures lo[i] < v || lo[i] == v
    {
      assert lo[i] == t[i];
      assert Id(t[i]) <= Id(t[k - 1]);
    }
    CountUniform(lo, v, true);
  }

  /** In an ascending sequence the entry at position k-1 is a k-th smallest entry. */
  lemma SortedOrderStatistic(t: seq<real>, k: nat)
    requires SortedBy(t, Id)
    requires 1 <= k <= |t|
    ensures IsKthSmallest(t, k, t[k - 1])
  {
    SortedCountBelow(t, k);
    SortedCountAtMost(t, k);
  }

  /** Raising the threshold past `v` counts at least everything that was at most `v`. */
  lemma {:induction false} CountMonotone(s: seq<real>, v: real, w: real)
    requires v < w
    ensures CountAtMost(s, v) <= CountBelow(s, w)
    decreases |s|
  {
    if |s| > 0 {
      CountMonotone(s[..|s| - 1], v, w);
    }
  }

  /** The order statistic is unique: at most one value is the k-th smallest. */
  lemma KthSmallestUnique(s: seq<real>, k: nat, v: real, w: real)
    requires IsKthSmallest(s, k, v) && IsKthSmallest(s, k, w)
    ensures v == w
  {
    if v < w {
      CountMonotone(s, v, w);
    } else if w < v {
      CountMonotone(s, w, v);
    }
  }

  /** `KthSmallest` computes exactly the order statistic, in both directions. */
  lemma KthSmallestCharacterized(s: seq<real>, k: nat, v: real)
    requires 1 <= k <= |s|
    ensures IsKthSmallest(s, k, v) <==> v == KthSmallest(s, k)
  {
    if IsKthSmallest(s, k, v) {
      KthSmallestUnique(s, k, v, KthSmallest(s, k));
    }
  }

  /** All entries distinct. */
  ghost predicate Distinct(s: seq<real>) {
    forall i, j :: 0 <= i < j < |s| ==> s[i] != s[j]
  }

  /** With distinct entries, at most one entry equals any given value. */
  lemma {:induction false} DistinctCountAtMostOneMore(s: seq<real>, c: real)
    requires Distinct(s)
    ensures CountAtMost(s, c) <= CountBelow(s, c) + 1
    ensures c !in s ==> CountAtMost(s, c) == CountBelow(s, c)
    decreases |s|
  {
    if |s| > 0 {
      var front := s[..|s| - 1];
      DistinctCountAtMostOneMore(front, c);
      if s[|s| - 1] == c {
        assert c !in front;
      }
    }
  }
}
