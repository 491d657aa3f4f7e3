/**
 Index-based selection, the way the tensor code selects rows: a boolean mask, the ascending
 positions of its true entries (`torch.where(mask)[0]`, `mask.nonzero()`), and indexing by those
 positions (`x[idx]`).
 */
module Selection {

  /** Every index is a valid position of a sequence of length `n`. */
  ghost predicate ValidIndices(idx: seq<nat>, n: nat) {
    forall a :: 0 <= a < |idx| ==> idx[a] < n
  }

  /** Indices listed in ascending order without repetition. */
  ghost predicate StrictlyIncreasing(idx: seq<nat>) {
    forall a, b :: 0 <= a < b < |idx| ==> idx[a] < idx[b]
  }

  /** `r` is `s` with some entries dropped and the others kept in their original order. */
  ghost predicate IsSubsequence<T>(r: seq<T>, s: seq<T>) {
    exists idx: seq<nat> ::
      && |idx| == |r|
      && ValidIndices(idx, |s|)
      && StrictlyIncreasing(idx)
      && forall a :: 0 <= a < |r| ==> r[a] == s[idx[a]]
  }

  /** Number of true entries of a mask. */
  function CountTrue(flags: seq<bool>): (n: nat)
    ensures n <= |flags|
  {
    if |flags| == 0 then 0
    else CountTrue(flags[..|flags| - 1]) + (if flags[|flags| - 1] then 1 else 0)
  }

  /** Ascending positions of the true entries of `flags`. */
  function Where(flags: seq<bool>): (idx: seq<nat>)
    ensures |idx| == CountTrue(flags)
    ensures ValidIndices(idx, |flags|)
    ensures StrictlyIncreasing(idx)
    ensures forall a :: 0 <= a < |idx| ==> flags[idx[a]]
    ensures forall k :: 0 <= k < |flags| && flags[k] ==> k in idx
  {
    if |flags| == 0 then []
    else
      var rest := Where(flags[..|flags| - 1]);
      if flags[|flags| - 1] then rest + [|flags| - 1] else rest
  }

  /** `s[idx]`: the entries of `s` at the given positions, in the order of `idx`. */
  function Gather<T>(s: seq<T>, idx: seq<nat>): (r: seq<T>)
    requires ValidIndices(idx, |s|)
    ensures |r| == |idx|
    ensures forall a :: 0 <= a < |r| ==> r[a] == s[idx[a]]
  {
    seq(|idx|, a requires 0 <= a < |idx| => s[idx[a]])
  }

  /** Every entry of `s` passed through `f`, in order. */
  function Map<A, B>(f: A -> B, s: seq<A>): (r: seq<B>)
    ensures |r| == |s|
  {
    seq(|s|, a requires 0 <= a < |s| => f(s[a]))
  }

  /** Mapping works entry by entry, so it distributes over concatenation. */
  lemma MapConcat<A, B>(f: A -> B, s: seq<A>, t: seq<A>)
    ensures Map(f, s + t) == Map(f, s) + Map(f, t)
  {
    forall a | 0 <= a < |s + t|
      ensures Map(f, s + t)[a] == (Map(f, s) + Map(f, t))[a]
    {
      if a >= |s| {
        assert (s + t)[a] == t[a - |s|];
      }
    }
  }

  /** The mask `keep(s)`, one flag per entry. */
  function Mask<T>(s: seq<T>, keep: T -> bool): (flags: seq<bool>)
    ensures |flags| == |s|
    ensures forall k :: 0 <= k < |s| ==> flags[k] == keep(s[k])
  {
    seq(|s|, k requires 0 <= k < |s| => keep(s[k]))
  }

  /** Number of entries of `s` satisfying `keep`. */
  function Count<T>(s: seq<T>, keep: T -> bool): (n: nat)
    ensures n <= |s|
  {
    if |s| == 0 then 0
    else Count(s[..|s| - 1], keep) + (if keep(s[|s| - 1]) then 1 else 0)
  }

  /** Boolean-mask selection `s[where(keep(s))]`. */
  function Filter<T>(s: seq<T>, keep: T -> bool): (r: seq<T>)
    ensures |r| <= |s|
    ensures forall a :: 0 <= a < |r| ==> keep(r[a])
    ensures IsSubsequence(r, s)
  {
    var flags := Mask(s, keep);
    var idx := Where(flags);
    var r := Gather(s, idx);
    assert |idx| == |r| && ValidIndices(idx, |s|) && StrictlyIncreasing(idx)
        && forall a :: 0 <= a < |r| ==> r[a] == s[idx[a]];
    r
  }

  /** A filter drops nothing that satisfies its predicate. */
  lemma FilterComplete<T>(s: seq<T>, keep: T -> bool, k: nat)
    requires k < |s| && keep(s[k])
    ensures s[k] in Filter(s, keep)
  {
    var idx := Where(Mask(s, keep));
    var a :| 0 <= a < |idx| && idx[a] == k;
    assert Filter(s, keep)[a] == s[k];
  }

  /** The number of entries a filter keeps is the number of entries satisfying its predicate. */
  lemma {:induction false} FilterLength<T>(s: seq<T>, keep: T -> bool)
    ensures |Filter(s, keep)| == Count(s, keep)
  {
    MaskCount(s, keep);
  }

  lemma {:induction false} MaskCount<T>(s: seq<T>, keep: T -> bool)
    ensures CountTrue(Mask(s, keep)) == Count(s, keep)
    decreases |s|
  {
    if |s| > 0 {
      assert Mask(s, keep)[..|s| - 1] == Mask(s[..|s| - 1], keep);
      MaskCount(s[..|s| - 1], keep);
    }
  }

  /** A subsequence keeps the relative order of any two of its entries. */
  lemma SubsequenceKeepsOrder<T>(r: seq<T>, s: seq<T>, before: (T, T) -> bool)
    requires IsSubsequence(r, s)
    requires forall i, j :: 0 <= i < j < |s| ==> before(s[i], s[j])
    ensures forall a, b :: 0 <= a < b < |r| ==> before(r[a], r[b])
  {
    var idx :| |idx| == |r| && ValidIndices(idx, |s|) && StrictlyIncreasing(idx)
      && forall a :: 0 <= a < |r| ==> r[a] == s[idx[a]];
    forall a, b | 0 <= a < b < |r|
      ensures before(r[a], r[b])
    {
      assert r[a] == s[idx[a]] && r[b] == s[idx[b]];
    }
  }

  /** A property every entry of a sequence has, every entry of its subsequences has too. */
  lemma SubsequenceKeepsProperty<T>(r: seq<T>, s: seq<T>, p: T -> bool)
    requires IsSubsequence(r, s)
    requires forall i :: 0 <= i < |s| ==> p(s[i])
    ensures forall a :: 0 <= a < |r| ==> p(r[a])
  {
    var idx :| |idx| == |r| && ValidIndices(idx, |s|) && StrictlyIncreasing(idx)
      && forall a :: 0 <= a < |r| ==> r[a] == s[idx[a]];
    forall a | 0 <= a < |r|
      ensures p(r[a])
    {
      assert r[a] == s[idx[a]];
    }
  }

  /** Every entry of a subsequence is an entry of the sequence it was taken from. */
  lemma SubsequenceMembers<T>(r: seq<T>, s: seq<T>)
    requires IsSubsequence(r, s)
    ensures forall a :: 0 <= a < |r| ==> r[a] in s
  {
    var idx :| |idx| == |r| && ValidIndices(idx, |s|) && StrictlyIncreasing(idx)
      && forall a :: 0 <= a < |r| ==> r[a] == s[idx[a]];
    forall a | 0 <= a < |r|
      ensures r[a] in s
    {
      assert s[idx[a]] == r[a];
    }
  }

  /** Whatever is in either part of a concatenation is in the whole. */
  lemma ConcatMembers<T>(u: seq<T>, v: seq<T>, x: T)
    ensures x in u ==> x in u + v
    ensures x in v ==> x in u + v
  {
    if x in u {
      var a :| 0 <= a < |u| && u[a] == x;
      assert (u + v)[a] == x;
    }
    if x in v {
      var a :| 0 <= a < |v| && v[a] == x;
      assert (u + v)[|u| + a] == x;
    }
  }

  /** The empty sequence is a subsequence of every sequence. */
  lemma EmptyIsSubsequence<T>(s: seq<T>)
    ensures IsSubsequence([], s)
  {
    var none: seq<nat> := [];
    assert |none| == 0 && ValidIndices(none, |s|) && StrictlyIncreasing(none);
  }
}
