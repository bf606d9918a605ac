/**
  Rank-based utility weights of xNES. Rank i (0 = best) gets the raw weight
  max(0, ln(lam/2 + 1) - ln(i + 1)); the raw weights are divided by their sum
  and shifted by 1/lam, so that the utilities add up to zero.
 */
module Weights {
  import opened Numerics

  /** Sum from the first element to the last, the order of the source's loop. */
  function Sum(s: seq<real>): (total: real) {
    if s == [] then 0.0 else Sum(s[..|s| - 1]) + s[|s| - 1]
  }

  lemma SumStep(s: seq<real>, i: nat)
    requires i < |s|
    ensures Sum(s[..i + 1]) == Sum(s[..i]) + s[i]
  {
    assert s[..i + 1][..i] == s[..i];
  }

  function RawWeight(ln: real -> real, lam: nat, i: nat): (w: real)
    ensures 0.0 <= w
  {
    Max(0.0, ln(lam as real / 2.0 + 1.0) - ln((i + 1) as real))
  }

  function RawWeights(ln: real -> real, lam: nat): (w: seq<real>)
    ensures |w| == lam
    ensures forall i :: 0 <= i < lam ==> w[i] == RawWeight(ln, lam, i)
  {
    seq(lam, i requires 0 <= i < lam => RawWeight(ln, lam, i))
  }

  /** Raw weights do not increase with the rank. */
  lemma RawWeightNonIncreasing(ln: real -> real, lam: nat, i: nat, j: nat)
    requires LnIncreasing(ln) && i <= j
    ensures RawWeight(ln, lam, j) <= RawWeight(ln, lam, i)
  {
    if i < j {
      assert ln((i + 1) as real) < ln((j + 1) as real);
    }
  }

  /** The best rank has a positive raw weight. */
  lemma RawWeightFirstPositive(ln: real -> real, lam: nat)
    requires LnIncreasing(ln) && lam >= 1
    ensures RawWeight(ln, lam, 0) > 0.0
  {
    assert ln(1.0) < ln(lam as real / 2.0 + 1.0);
  }

  lemma {:induction false} SumNonNegAtLeastFirst(s: seq<real>, k: nat)
    requires 1 <= k <= |s|
    requires forall i :: 0 <= i < |s| ==> 0.0 <= s[i]
    ensures Sum(s[..k]) >= s[0]
  {
    SumStep(s, k - 1);
    if k > 1 {
      SumNonNegAtLeastFirst(s, k - 1);
    } else {
      assert s[..0] == [];
    }
  }

  /** The normalising sum is positive whenever there is at least one rank. */
  lemma RawSumPositive(ln: real -> real, lam: nat)
    requires LnIncreasing(ln) && lam >= 1
    ensures Sum(RawWeights(ln, lam)) > 0.0
  {
    var w := RawWeights(ln, lam);
    RawWeightFirstPositive(ln, lam);
    SumNonNegAtLeastFirst(w, lam);
    assert w[..lam] == w;
  }

  /** The utility of rank i. */
  function Utility(ln: real -> real, lam: nat, i: nat): (u: real)
    requires LnIncreasing(ln) && i < lam
    ensures -1.0 / lam as real <= u
  {
    var w, S := RawWeight(ln, lam, i), Sum(RawWeights(ln, lam));
    RawSumPositive(ln, lam);
    DivMonotone(0.0, w, S);
    w / S - 1.0 / lam as real
  }

  function Utilities(ln: real -> real, lam: nat): (u: seq<real>)
    requires LnIncreasing(ln)
    ensures |u| == lam
    ensures forall i :: 0 <= i < lam ==> u[i] == Utility(ln, lam, i)
  {
    seq(lam, i requires 0 <= i < lam => Utility(ln, lam, i))
  }

  lemma DivAdd(a: real, c: real, S: real)
    requires S != 0.0
    ensures (a + c) / S == a / S + c / S
  {
  }

  /** Summing w[i]/S - 1/lam over a prefix of length k gives Sum(w[..k])/S - k/lam. */
  lemma {:induction false} NormalisedPrefixSum(w: seq<real>, u: seq<real>, S: real, lam: real, k: nat)
    requires S != 0.0 && lam != 0.0 && |u| == |w| && k <= |w|
    requires forall i :: 0 <= i < |w| ==> u[i] == w[i] / S - 1.0 / lam
    ensures Sum(u[..k]) == Sum(w[..k]) / S - k as real / lam
  {
    if k == 0 {
      assert u[..0] == [] && w[..0] == [];
    } else {
      NormalisedPrefixSum(w, u, S, lam, k - 1);
      SumStep(u, k - 1);
      SumStep(w, k - 1);
      DivAdd(Sum(w[..k - 1]), w[k - 1], S);
      DivAdd((k - 1) as real, 1.0, lam);
    }
  }

  lemma DivSelf(x: real)
    requires x != 0.0
    ensures x / x == 1.0
  {
  }

  lemma DivMonotone(a: real, b: real, S: real)
    requires a <= b && S > 0.0
    ensures a / S <= b / S
  {
  }

  /** Each utility is its raw weight over the raw weights' sum, less 1/lam. */
  lemma UtilitiesNormalised(ln: real -> real, lam: nat)
    requires LnIncreasing(ln) && lam >= 1
    ensures Sum(RawWeights(ln, lam)) > 0.0
    ensures forall i :: 0 <= i < lam ==>
              Utilities(ln, lam)[i] == RawWeights(ln, lam)[i] / Sum(RawWeights(ln, lam)) - 1.0 / lam as real
  {
    RawSumPositive(ln, lam);
  }

  /** The utilities add up to zero: the update they weight adds no constant bias. */
  lemma UtilitiesSumToZero(ln: real -> real, lam: nat)
    requires LnIncreasing(ln)
    ensures Sum(Utilities(ln, lam)) == 0.0
  {
    if lam == 0 {
      assert Utilities(ln, lam) == [];
    } else {
      var u, w := Utilities(ln, lam), RawWeights(ln, lam);
      UtilitiesNormalised(ln, lam);
      NormalisedPrefixSum(w, u, Sum(w), lam as real, lam);
      assert u[..lam] == u && w[..lam] == w;
      DivSelf(Sum(w));
      DivSelf(lam as real);
    }
  }

  /** Utilities follow the order of the raw weights: a better rank never has
      a smaller utility. */
  lemma UtilityNonIncreasing(ln: real -> real, lam: nat, i: nat, j: nat)
    requires LnIncreasing(ln) && i <= j < lam
    ensures Utility(ln, lam, j) <= Utility(ln, lam, i)
  {
    RawWeightNonIncreasing(ln, lam, i, j);
    RawSumPositive(ln, lam);
    DivMonotone(RawWeight(ln, lam, j), RawWeight(ln, lam, i), Sum(RawWeights(ln, lam)));
  }

  /** The three loops of the source: raw weights, their sum, normalisation. */
  method ComputeUtilities(ln: real -> real, lam: nat) returns (u: seq<real>)
    requires LnIncreasing(ln)
    ensures u == Utilities(ln, lam)
    ensures Sum(u) == 0.0
  {
    var w := new real[lam];
    ghost var raw := RawWeights(ln, lam);
    for i := 0 to lam
      invariant forall k :: 0 <= k < i ==> w[k] == raw[k]
    {
      w[i] := Max(0.0, ln(lam as real / 2.0 + 1.0) - ln((i + 1) as real));
    }
    assert w[..] == raw;
    var sum := 0.0;
    for i := 0 to lam
      invariant w[..] == raw
      invariant sum == Sum(raw[..i])
    {
      SumStep(raw, i);
      sum := sum + w[i];
    }
    assert raw[..lam] == raw;
    for i := 0 to lam
      invariant forall k :: 0 <= k < i ==> w[k] == Utility(ln, lam, k)
      invariant forall k :: i <= k < lam ==> w[k] == raw[k]
    {
      RawSumPositive(ln, lam);
      w[i] := w[i] / sum - 1.0 / lam as real;
    }
    u := w[..];
    UtilitiesSumToZero(ln, lam);
  }
}
