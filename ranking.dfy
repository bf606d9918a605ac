/**
  Ranking of a generation: the indices 0..lam-1 ordered by non-decreasing
  fitness, best first, as the source builds them with iota and sort.
 */
module Ranking {

  /** The sequence 0, 1, ..., n-1. */
  function Iota(n: nat): (s: seq<nat>)
    ensures |s| == n && forall i :: 0 <= i < n ==> s[i] == i
  {
    if n == 0 then [] else Iota(n - 1) + [n - 1]
  }

  /** The indices in s are ordered by non-decreasing fitness. */
  predicate SortedBy(s: seq<nat>, f: seq<real>)
  {
    forall i, j :: 0 <= i < j < |s| && s[i] < |f| && s[j] < |f| ==> f[s[i]] <= f[s[j]]
  }

  /** The entries of s with k inserted at position p. */
  lemma InsertAt(s: seq<nat>, k: nat, p: nat, i: nat)
    requires p <= |s| && i <= |s|
    ensures (s[..p] + [k] + s[p..])[i] == if i < p then s[i] else if i == p then k else s[i - 1]
  {
  }

  /** Inserting index k at position p keeps the order when everything before
      p is no worse than k and everything from p on is strictly worse. */
  lemma InsertKeepsOrder(s: seq<nat>, f: seq<real>, k: nat, p: nat)
    requires p <= |s| && k < |f| && SortedBy(s, f)
    requires forall i :: 0 <= i < |s| ==> s[i] < |f|
    requires forall q :: 0 <= q < p ==> f[s[q]] <= f[k]
    requires forall q :: p <= q < |s| ==> f[k] < f[s[q]]
    ensures SortedBy(s[..p] + [k] + s[p..], f)
  {
    var t := s[..p] + [k] + s[p..];
    forall i, j | 0 <= i < j < |t| && t[i] < |f| && t[j] < |f|
      ensures f[t[i]] <= f[t[j]]
    {
      InsertAt(s, k, p, i);
      InsertAt(s, k, p, j);
    }
  }

  /** Inserting adds exactly one occurrence of k. */
  lemma InsertAddsOne(s: seq<nat>, k: nat, p: nat)
    requires p <= |s|
    ensures multiset(s[..p] + [k] + s[p..]) == multiset(s) + multiset{k}
  {
    assert s == s[..p] + s[p..];
  }

  /** Where index k goes in s: after every entry no worse than it, scanning
      from position p on. */
  function InsertPos(s: seq<nat>, f: seq<real>, k: nat, p: nat): (q: nat)
    requires p <= |s| && k < |f| && forall i :: 0 <= i < |s| ==> s[i] < |f|
    ensures p <= q <= |s|
    ensures forall i :: p <= i < q ==> f[s[i]] <= f[k]
    ensures q < |s| ==> f[k] < f[s[q]]
    decreases |s| - p
  {
    if p == |s| || f[k] < f[s[p]] then p else InsertPos(s, f, k, p + 1)
  }

  /** The ranking of indices 0..k-1, each inserted after the entries of
      equal or better fitness. */
  function Rank(f: seq<real>, k: nat): (s: seq<nat>)
    requires k <= |f|
    ensures |s| == k && forall i :: 0 <= i < k ==> s[i] < k
  {
    if k == 0 then []
    else
      var r := Rank(f, k - 1);
      var p := InsertPos(r, f, k - 1, 0);
      r[..p] + [k - 1] + r[p..]
  }

  /** In a sorted s, every entry from the insertion slot of k on is strictly
      worse than k. */
  lemma WorseFromSlot(s: seq<nat>, f: seq<real>, k: nat)
    requires k < |f| && SortedBy(s, f) && forall i :: 0 <= i < |s| ==> s[i] < |f|
    ensures forall q :: InsertPos(s, f, k, 0) <= q < |s| ==> f[k] < f[s[q]]
  {
    var p := InsertPos(s, f, k, 0);
    forall q | p <= q < |s| ensures f[k] < f[s[q]] {
      assert f[k] < f[s[p]] && f[s[p]] <= f[s[q]];
    }
  }

  lemma RankSortedStep(f: seq<real>, k: nat)
    requires 1 <= k <= |f| && SortedBy(Rank(f, k - 1), f)
    ensures SortedBy(Rank(f, k), f)
  {
    var r := Rank(f, k - 1);
    WorseFromSlot(r, f, k - 1);
    InsertKeepsOrder(r, f, k - 1, InsertPos(r, f, k - 1, 0));
  }

  lemma RankPermutationStep(f: seq<real>, k: nat)
    requires 1 <= k <= |f| && multiset(Rank(f, k - 1)) == multiset(Iota(k - 1))
    ensures multiset(Rank(f, k)) == multiset(Iota(k))
  {
    var r := Rank(f, k - 1);
    InsertAddsOne(r, k - 1, InsertPos(r, f, k - 1, 0));
    assert Iota(k) == Iota(k - 1) + [k - 1];
  }

  /** The ranking is ordered by fitness. */
  lemma {:induction false} RankSorted(f: seq<real>, k: nat)
    requires k <= |f|
    ensures SortedBy(Rank(f, k), f)
  {
    if k > 0 {
      RankSorted(f, k - 1);
      RankSortedStep(f, k);
    }
  }

  /** The ranking is a permutation of 0..k-1. */
  lemma {:induction false} RankPermutation(f: seq<real>, k: nat)
    requires k <= |f|
    ensures multiset(Rank(f, k)) == multiset(Iota(k))
  {
    if k > 0 {
      RankPermutation(f, k - 1);
      RankPermutationStep(f, k);
    }
  }

  /** Indices of equal fitness appear in increasing order. */
  predicate TiesInIndexOrder(s: seq<nat>, f: seq<real>)
  {
    forall i, j :: 0 <= i < j < |s| && s[i] < |f| && s[j] < |f| && f[s[i]] == f[s[j]] ==> s[i] < s[j]
  }

  /** Inserting an index larger than every entry, before the entries strictly
      worse than it, keeps ties in index order. */
  lemma InsertKeepsTieOrder(s: seq<nat>, f: seq<real>, k: nat, p: nat)
    requires p <= |s| && k < |f| && TiesInIndexOrder(s, f)
    requires forall i :: 0 <= i < |s| ==> s[i] < k
    requires forall q :: p <= q < |s| ==> f[k] < f[s[q]]
    ensures TiesInIndexOrder(s[..p] + [k] + s[p..], f)
  {
    var t := s[..p] + [k] + s[p..];
    forall i, j | 0 <= i < j < |t| && t[i] < |f| && t[j] < |f| && f[t[i]] == f[t[j]]
      ensures t[i] < t[j]
    {
      InsertAt(s, k, p, i);
      InsertAt(s, k, p, j);
    }
  }

  lemma RankTiesStep(f: seq<real>, k: nat)
    requires 1 <= k <= |f| && TiesInIndexOrder(Rank(f, k - 1), f)
    ensures TiesInIndexOrder(Rank(f, k), f)
  {
    var r := Rank(f, k - 1);
    RankSorted(f, k - 1);
    WorseFromSlot(r, f, k - 1);
    InsertKeepsTieOrder(r, f, k - 1, InsertPos(r, f, k - 1, 0));
  }

  /** Indices of equal fitness keep their relative order. The source's sort
      leaves that order open; the model fixes this one. */
  lemma {:induction false} RankTiesByIndex(f: seq<real>, k: nat)
    requires k <= |f|
    ensures TiesInIndexOrder(Rank(f, k), f)
  {
    if k > 0 {
      RankTiesByIndex(f, k - 1);
      RankTiesStep(f, k);
    }
  }

  /** Orders the indices of f by fitness, best first: each index is inserted
      after the entries of equal or better fitness. */
  method SortByFitness(f: seq<real>) returns (s: seq<nat>)
    ensures s == Rank(f, |f|)
  {
    s := [];
    for k := 0 to |f|
      invariant s == Rank(f, k)
    {
      var p := FindSlot(s, f, k);
      assert Rank(f, k + 1) == s[..p] + [k] + s[p..];
      s := s[..p] + [k] + s[p..];
    }
  }

  /** Scans s for the first entry strictly worse than index k. */
  method FindSlot(s: seq<nat>, f: seq<real>, k: nat) returns (p: nat)
    requires k < |f| && forall i :: 0 <= i < |s| ==> s[i] < |f|
    ensures p == InsertPos(s, f, k, 0)
  {
    p := 0;
    while p < |s| && f[s[p]] <= f[k]
      invariant 0 <= p <= |s|
      invariant InsertPos(s, f, k, p) == InsertPos(s, f, k, 0)
    {
      p := p + 1;
    }
  }
}
