/**
  The search distribution xNES keeps between calls of evolve: its mean, the
  transform A (a square root of the covariance) and the global step size
  sigma. This module states how a call starts from it: reset to a fresh
  distribution, or keep what the previous call left.
 */
module Distribution {
  import opened LinAlg
  import opened Numerics
  import opened Params

  datatype Distribution = Distribution(mean: Vector, A: Matrix, sigma: real)

  /** The mean has n coordinates and A is n x n. */
  predicate Shaped(d: Distribution, n: nat) {
    |d.mean| == n && IsSquare(d.A, n)
  }

  /** What the constructor stores: mean 0 in dimension 1, A the 1 x 1
      identity, and sigma the configured sigma0 (which may be the sentinel -1). */
  function Constructed(sigma0: real): (d: Distribution)
    ensures Shaped(d, 1) && d.mean == [0.0] && d.A == [[1.0]] && d.sigma == sigma0
  {
    assert Identity(1)[0] == [1.0];
    Distribution([0.0], Identity(1), sigma0)
  }

  /** sigma after a reset: 1 for the sentinel, sigma0 otherwise. */
  function InitialSigma(sigma0: real): (s: real)
    ensures sigma0 == Auto ==> s == 1.0
    ensures sigma0 != Auto ==> s == sigma0
    ensures InRange(sigma0) ==> 0.0 < s <= 1.0
  {
    if sigma0 == Auto then 1.0 else sigma0
  }

  /** Width of the box along coordinate j, clamped below at 1e-6. */
  function Width(lb: Vector, ub: Vector, j: nat): (w: real)
    requires j < |lb| && j < |ub|
    ensures w >= 0.000001
  {
    Max(ub[j] - lb[j], 0.000001)
  }

  /** The reset transform: diagonal, entry j the clamped box width times sigma. */
  function InitialA(lb: Vector, ub: Vector, sigma: real): (A: Matrix)
    requires |lb| == |ub|
    ensures IsSquare(A, |lb|)
    ensures forall i, j :: 0 <= i < |lb| && 0 <= j < |lb| ==> A[i][j] == if i == j then Width(lb, ub, j) * sigma else 0.0
  {
    seq(|lb|, i requires 0 <= i < |lb| =>
      seq(|lb|, j requires 0 <= j < |lb| => if i == j then Width(lb, ub, j) * sigma else 0.0))
  }

  /** The distribution a reset produces, centred on the best individual. */
  function Initial(sigma0: real, lb: Vector, ub: Vector, best: Vector): (d: Distribution)
    requires |lb| == |ub| == |best|
    ensures Shaped(d, |best|)
  {
    var s := InitialSigma(sigma0);
    Distribution(best, InitialA(lb, ub, s), s)
  }

  /** With a valid sigma0, a reset spreads the search along every coordinate:
      each diagonal entry of A is at least 1e-6 times a positive sigma, and A
      has no off-diagonal entries. */
  lemma InitialSpreadPositive(sigma0: real, lb: Vector, ub: Vector, best: Vector)
    requires |lb| == |ub| == |best| && InRange(sigma0)
    ensures var d := Initial(sigma0, lb, ub, best);
            && 0.0 < d.sigma <= 1.0 && d.mean == best
            && forall i, j :: 0 <= i < |best| && 0 <= j < |best| ==>
                 (i == j ==> d.A[i][j] >= 0.000001 * d.sigma > 0.0) && (i != j ==> d.A[i][j] == 0.0)
  {
    var d := Initial(sigma0, lb, ub, best);
    forall j | 0 <= j < |best| ensures d.A[j][j] >= 0.000001 * d.sigma {
      assert (Width(lb, ub, j) - 0.000001) * d.sigma >= 0.0;
    }
  }

  /** The source's condition for a reset: memory is off, or the stored mean
      does not have the problem's dimension. */
  predicate NeedsReset(memory: bool, meanSize: nat, dim: nat)
    ensures !NeedsReset(memory, meanSize, dim) <==> memory && meanSize == dim
  {
    (meanSize != dim) || (memory == false)
  }

  /** The distribution a call starts its generations from. */
  function StartOfCall(memory: bool, d: Distribution, sigma0: real, lb: Vector, ub: Vector, best: Vector)
    : (r: Distribution)
    requires |lb| == |ub| == |best|
    ensures NeedsReset(memory, |d.mean|, |best|) ==> r == Initial(sigma0, lb, ub, best)
    ensures !NeedsReset(memory, |d.mean|, |best|) ==> r == d
    ensures Shaped(d, |d.mean|) ==> Shaped(r, |best|)
  {
    if NeedsReset(memory, |d.mean|, |best|) then Initial(sigma0, lb, ub, best) else d
  }

  /** With memory on and a one-dimensional problem, the first call finds a
      mean of the right size already and keeps the constructor's mean 0,
      A = [[1]] and sigma = sigma0, which is -1 for the sentinel. */
  lemma OneDimensionalFirstCallSkipsReset(sigma0: real, lb: Vector, ub: Vector, best: Vector)
    requires |lb| == |ub| == |best| == 1
    ensures StartOfCall(true, Constructed(sigma0), sigma0, lb, ub, best) == Constructed(sigma0)
    ensures sigma0 == Auto ==> StartOfCall(true, Constructed(sigma0), sigma0, lb, ub, best).sigma < 0.0
  {
  }

  /** The reset condition as evidently intended: also reset when the memory
      has never been initialised from a problem. */
  predicate NeedsResetIntended(memory: bool, initialised: bool, meanSize: nat, dim: nat) {
    !initialised || meanSize != dim || !memory
  }

  /** The distribution a call starts from under the intended condition. */
  function StartOfCallIntended(memory: bool, initialised: bool, d: Distribution, sigma0: real,
                               lb: Vector, ub: Vector, best: Vector): (r: Distribution)
    requires |lb| == |ub| == |best|
    ensures NeedsResetIntended(memory, initialised, |d.mean|, |best|) ==> r == Initial(sigma0, lb, ub, best)
    ensures !NeedsResetIntended(memory, initialised, |d.mean|, |best|) ==> r == d
    ensures Shaped(d, |d.mean|) ==> Shaped(r, |best|)
  {
    if NeedsResetIntended(memory, initialised, |d.mean|, |best|) then Initial(sigma0, lb, ub, best) else d
  }

  /** Under the intended condition the first call always starts from a reset
      distribution centred on the best individual with a positive sigma, in
      every dimension, while later calls with memory on still keep theirs. */
  lemma IntendedFirstCallResets(memory: bool, d: Distribution, sigma0: real, lb: Vector, ub: Vector, best: Vector)
    requires |lb| == |ub| == |best| && InRange(sigma0)
    ensures StartOfCallIntended(memory, false, d, sigma0, lb, ub, best).mean == best
    ensures StartOfCallIntended(memory, false, d, sigma0, lb, ub, best).sigma > 0.0
    ensures |d.mean| == |best| ==> StartOfCallIntended(true, true, d, sigma0, lb, ub, best) == d
  {
    InitialSpreadPositive(sigma0, lb, ub, best);
  }
}
