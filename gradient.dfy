/**
  The natural-gradient step of xNES. With the noise vectors z ranked best
  first by the index sequence s and weighted by the utilities u:
    d_center = sum_i u_i z_{s_i}
    cov_grad = sum_i u_i (z_{s_i} z_{s_i}ᵗ - I), split into its trace and a traceless part
    d_A      = (eta_sigma tr/n I + eta_b cov_grad) / 2
  and the distribution moves to mean + eta_mu A d_center, A expm(d_A),
  sigma exp(eta_sigma tr / (2n)).
 */
module NaturalGradient {
  import opened LinAlg
  import opened Numerics
  import opened Params
  import opened Weights
  import opened Distribution

  /** Every noise vector has n coordinates and every rank names one of them. */
  predicate Ranked(u: seq<real>, z: seq<Vector>, s: seq<nat>, n: nat) {
    && |s| == |u|
    && (forall i :: 0 <= i < |s| ==> s[i] < |z|)
    && (forall i :: 0 <= i < |z| ==> |z[i]| == n)
  }

  /** sum_{i<k} u_i z_{s_i}, accumulated from the best rank on. */
  function WeightedNoise(u: seq<real>, z: seq<Vector>, s: seq<nat>, n: nat, k: nat): (v: Vector)
    requires Ranked(u, z, s, n) && 1 <= k <= |u|
    ensures |v| == n
  {
    if k == 1 then VecScale(u[0], z[s[0]])
    else VecAdd(WeightedNoise(u, z, s, n, k - 1), VecScale(u[k - 1], z[s[k - 1]]))
  }

  /** One rank's contribution c (z zᵗ - I) to the covariance gradient. */
  function CovTerm(c: real, zi: Vector, n: nat): (M: Matrix)
    requires |zi| == n
    ensures IsSquare(M, n)
  {
    TraceOuter(zi);
    MatScale(c, MatSub(Outer(zi, zi), Identity(n), n), n)
  }

  /** sum_{i<k} u_i (z_{s_i} z_{s_i}ᵗ - I). */
  function CovSum(u: seq<real>, z: seq<Vector>, s: seq<nat>, n: nat, k: nat): (M: Matrix)
    requires Ranked(u, z, s, n) && 1 <= k <= |u|
    ensures IsSquare(M, n)
  {
    if k == 1 then CovTerm(u[0], z[s[0]], n)
    else MatAdd(CovSum(u, z, s, n, k - 1), CovTerm(u[k - 1], z[s[k - 1]], n), n)
  }

  /** sum_{i<k} u_i |z_{s_i}|². */
  function WeightedSqNorms(u: seq<real>, z: seq<Vector>, s: seq<nat>, n: nat, k: nat): (r: real)
    requires Ranked(u, z, s, n) && k <= |u|
  {
    if k == 0 then 0.0 else WeightedSqNorms(u, z, s, n, k - 1) + u[k - 1] * SqNorm(z[s[k - 1]])
  }

  /** sum_{i<k} u_i (|z_{s_i}|² - n): the traces of the ranks' contributions. */
  function TraceTerms(u: seq<real>, z: seq<Vector>, s: seq<nat>, n: nat, k: nat): (r: real)
    requires Ranked(u, z, s, n) && k <= |u|
  {
    if k == 0 then 0.0 else TraceTerms(u, z, s, n, k - 1) + u[k - 1] * (SqNorm(z[s[k - 1]]) - n as real)
  }

  lemma CovTermTrace(c: real, zi: Vector, n: nat)
    requires |zi| == n
    ensures Trace(CovTerm(c, zi, n), n) == c * (SqNorm(zi) - n as real)
  {
    TraceOuter(zi);
    TraceIdentity(n);
    TraceSub(Outer(zi, zi), Identity(n), n);
    TraceScale(c, MatSub(Outer(zi, zi), Identity(n), n), n);
  }

  /** Adding one rank's term adds its trace. */
  lemma CovSumTraceStep(u: seq<real>, z: seq<Vector>, s: seq<nat>, n: nat, k: nat)
    requires Ranked(u, z, s, n) && 1 < k <= |u|
    requires Trace(CovSum(u, z, s, n, k - 1), n) == TraceTerms(u, z, s, n, k - 1)
    ensures Trace(CovSum(u, z, s, n, k), n) == TraceTerms(u, z, s, n, k)
  {
    CovTermTrace(u[k - 1], z[s[k - 1]], n);
    TraceAddKnown(CovSum(u, z, s, n, k - 1), CovTerm(u[k - 1], z[s[k - 1]], n), n,
                  TraceTerms(u, z, s, n, k - 1), u[k - 1] * (SqNorm(z[s[k - 1]]) - n as real));
  }

  /** The trace of the covariance sum is the sum of its terms' traces. */
  lemma {:induction false} CovSumTrace(u: seq<real>, z: seq<Vector>, s: seq<nat>, n: nat, k: nat)
    requires Ranked(u, z, s, n) && 1 <= k <= |u|
    ensures Trace(CovSum(u, z, s, n, k), n) == TraceTerms(u, z, s, n, k)
  {
    if k == 1 {
      CovTermTrace(u[0], z[s[0]], n);
    } else {
      CovSumTrace(u, z, s, n, k - 1);
      CovSumTraceStep(u, z, s, n, k);
    }
  }

  lemma TraceTermsArith(t: real, w: real, sum: real, c: real, a: real, N: real)
    requires t == w - N * sum
    ensures t + c * (a - N) == (w + c * a) - N * (sum + c)
  {
  }

  /** The terms' traces split into the utility-weighted squared lengths and
      n times the sum of the utilities. */
  lemma {:induction false} TraceTermsSplit(u: seq<real>, z: seq<Vector>, s: seq<nat>, n: nat, k: nat)
    requires Ranked(u, z, s, n) && k <= |u|
    ensures TraceTerms(u, z, s, n, k) == WeightedSqNorms(u, z, s, n, k) - n as real * Sum(u[..k])
  {
    if k == 0 {
      assert u[..0] == [];
    } else {
      TraceTermsSplit(u, z, s, n, k - 1);
      SumStep(u, k - 1);
      TraceTermsArith(TraceTerms(u, z, s, n, k - 1), WeightedSqNorms(u, z, s, n, k - 1),
                      Sum(u[..k - 1]), u[k - 1], SqNorm(z[s[k - 1]]), n as real);
    }
  }

  /** With zero-sum utilities, the "- I" terms cancel in the trace. */
  lemma CovTraceOfZeroSumUtilities(u: seq<real>, z: seq<Vector>, s: seq<nat>, n: nat)
    requires Ranked(u, z, s, n) && 1 <= |u| && Sum(u) == 0.0
    ensures Trace(CovSum(u, z, s, n, |u|), n) == WeightedSqNorms(u, z, s, n, |u|)
  {
    CovSumTrace(u, z, s, n, |u|);
    TraceTermsSplit(u, z, s, n, |u|);
    assert u[..|u|] == u;
  }

  /** C - (t/n) I: the covariance gradient with its isotropic part t removed. */
  function RemoveTrace(C: Matrix, t: real, n: nat): (R: Matrix)
    requires IsSquare(C, n) && n >= 1
    ensures IsSquare(R, n)
    ensures forall i, j :: 0 <= i < n && 0 <= j < n ==> R[i][j] == if i == j then C[i][j] - t / n as real else C[i][j]
  {
    MatSub(C, MatScale(t / n as real, Identity(n), n), n)
  }

  /** Removing a matrix's own trace leaves a traceless matrix. */
  lemma TraceRemoved(C: Matrix, n: nat)
    requires IsSquare(C, n) && n >= 1
    ensures Trace(RemoveTrace(C, Trace(C, n), n), n) == 0.0
  {
    var t := Trace(C, n);
    TraceIdentity(n);
    TraceScale(t / n as real, Identity(n), n);
    TraceSub(C, MatScale(t / n as real, Identity(n), n), n);
    assert t / n as real * n as real == t;
  }

  /** The accumulation loops of one generation's update, and the trace removal. */
  method Gradients(u: seq<real>, z: seq<Vector>, s: seq<nat>, n: nat)
    returns (dCenter: Vector, covGrad: Matrix, covTrace: real)
    requires Ranked(u, z, s, n) && 1 <= |u| && n >= 1
    ensures dCenter == WeightedNoise(u, z, s, n, |u|)
    ensures covTrace == TraceTerms(u, z, s, n, |u|)
    ensures covGrad == RemoveTrace(CovSum(u, z, s, n, |u|), covTrace, n)
    ensures IsSquare(covGrad, n) && Trace(covGrad, n) == 0.0
  {
    var I := Identity(n);
    dCenter := VecScale(u[0], z[s[0]]);
    for i := 1 to |u|
      invariant dCenter == WeightedNoise(u, z, s, n, i)
    {
      dCenter := VecAdd(dCenter, VecScale(u[i], z[s[i]]));
    }
    covGrad := CovTerm(u[0], z[s[0]], n);
    for i := 1 to |u|
      invariant covGrad == CovSum(u, z, s, n, i)
    {
      covGrad := MatAdd(covGrad, MatScale(u[i], MatSub(Outer(z[s[i]], z[s[i]]), I, n), n), n);
    }
    covTrace := Trace(covGrad, n);
    CovSumTrace(u, z, s, n, |u|);
    TraceRemoved(covGrad, n);
    covGrad := MatSub(covGrad, MatScale(covTrace / n as real, I, n), n);
  }

  lemma DivMul(x: real, N: real)
    requires N != 0.0
    ensures x / N * N == x
  {
  }

  /** d_A = (eta_sigma tr/n I + eta_b cov_grad) / 2. Its trace is
      (eta_sigma tr + eta_b tr(cov_grad)) / 2: the isotropic part contributes
      eta_sigma tr / 2 whatever n is. */
  function DeltaA(covGrad: Matrix, covTrace: real, rates: Rates, n: nat): (D: Matrix)
    requires IsSquare(covGrad, n) && n >= 1
    ensures IsSquare(D, n)
    ensures Trace(D, n) == 0.5 * (rates.etaSigma * covTrace + rates.etaB * Trace(covGrad, n))
  {
    var c := rates.etaSigma * covTrace / n as real;
    var P, Q := MatScale(c, Identity(n), n), MatScale(rates.etaB, covGrad, n);
    TraceScaleAdd(0.5, P, Q, n);
    TraceIdentity(n);
    TraceScale(c, Identity(n), n);
    TraceScale(rates.etaB, covGrad, n);
    DivMul(rates.etaSigma * covTrace, n as real);
    MatScale(0.5, MatAdd(P, Q, n), n)
  }

  /** The update of the distribution. The step size follows the isotropic part
      of the transform's update: its exponent is tr(d_A) / n. */
  function Update(d: Distribution, dCenter: Vector, covGrad: Matrix, covTrace: real,
                  rates: Rates, k: Kernel, n: nat): (r: Distribution)
    requires Shaped(d, n) && |dCenter| == n && IsSquare(covGrad, n) && n >= 1
    requires ExpmKeepsShape(k.expm) && Trace(covGrad, n) == 0.0
    ensures Shaped(r, n)
    ensures r.mean == VecAdd(d.mean, VecScale(rates.etaMu, MatVec(d.A, dCenter)))
    ensures r.A == MatMul(d.A, k.expm(DeltaA(covGrad, covTrace, rates, n)), n)
    ensures r.sigma == d.sigma * k.exp(Trace(DeltaA(covGrad, covTrace, rates, n), n) / n as real)
  {
    var dA := DeltaA(covGrad, covTrace, rates, n);
    assert IsSquare(k.expm(dA), n);
    assert rates.etaSigma / 2.0 * covTrace / n as real == Trace(dA, n) / n as real;
    Distribution(VecAdd(d.mean, VecScale(rates.etaMu, MatVec(d.A, dCenter))),
                 MatMul(d.A, k.expm(dA), n),
                 d.sigma * k.exp(rates.etaSigma / 2.0 * covTrace / n as real))
  }

  /** One generation's move of the distribution, from the ranked noise
      vectors: the gradients as the accumulation loops build them, the trace
      removed from the covariance gradient, then the update. */
  function Advance(d: Distribution, u: seq<real>, z: seq<Vector>, s: seq<nat>, rates: Rates, k: Kernel, n: nat)
    : (r: Distribution)
    requires Ranked(u, z, s, n) && 1 <= |u| && n >= 1
    requires Shaped(d, n) && ExpmKeepsShape(k.expm)
    ensures Shaped(r, n)
  {
    var tr := TraceTerms(u, z, s, n, |u|);
    CovSumTrace(u, z, s, n, |u|);
    TraceRemoved(CovSum(u, z, s, n, |u|), n);
    Update(d, WeightedNoise(u, z, s, n, |u|), RemoveTrace(CovSum(u, z, s, n, |u|), tr, n), tr, rates, k, n)
  }
}
