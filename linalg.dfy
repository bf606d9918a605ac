/**
  Dense vectors and matrices over the reals, as the xNES update uses them:
  a vector is a sequence of coordinates, a matrix a sequence of rows.
  Only the operations the algorithm needs are defined, together with the
  facts about the trace that the covariance-gradient step relies on.
 */
module LinAlg {

  type Vector = seq<real>
  type Matrix = seq<seq<real>>

  /** M has n rows of n entries each. */
  predicate IsSquare(M: Matrix, n: nat) {
    |M| == n && forall i :: 0 <= i < n ==> |M[i]| == n
  }

  /** M has as many columns as z has coordinates. */
  predicate Conforms(M: Matrix, z: Vector) {
    forall i :: 0 <= i < |M| ==> |M[i]| == |z|
  }

  function Identity(n: nat): (M: Matrix)
    ensures IsSquare(M, n)
    ensures forall i, j {:trigger M[i][j]} :: 0 <= i < n && 0 <= j < n ==> M[i][j] == if i == j then 1.0 else 0.0
  {
    seq(n, i => seq(n, j => if i == j then 1.0 else 0.0))
  }

  function VecAdd(a: Vector, b: Vector): (r: Vector)
    requires |a| == |b|
    ensures |r| == |a|
    ensures forall j {:trigger r[j]} :: 0 <= j < |r| ==> r[j] == a[j] + b[j]
  {
    seq(|a|, j requires 0 <= j < |a| => a[j] + b[j])
  }

  function VecScale(c: real, a: Vector): (r: Vector)
    ensures |r| == |a|
    ensures forall j {:trigger r[j]} :: 0 <= j < |r| ==> r[j] == c * a[j]
  {
    seq(|a|, j requires 0 <= j < |a| => c * a[j])
  }

  /** Inner product, accumulated from the first coordinate to the last. */
  function Dot(a: Vector, b: Vector): (d: real)
    requires |a| == |b|
  {
    if |a| == 0 then 0.0 else Dot(a[..|a| - 1], b[..|b| - 1]) + a[|a| - 1] * b[|b| - 1]
  }

  function SqNorm(a: Vector): (r: real) {
    Dot(a, a)
  }

  function MatVec(M: Matrix, z: Vector): (r: Vector)
    requires Conforms(M, z)
    ensures |r| == |M|
    ensures forall i {:trigger r[i]} :: 0 <= i < |r| ==> r[i] == Dot(M[i], z)
  {
    seq(|M|, i requires 0 <= i < |M| => Dot(M[i], z))
  }

  /** The outer product a·bᵗ. */
  function Outer(a: Vector, b: Vector): (M: Matrix)
    ensures |M| == |a| && forall i :: 0 <= i < |a| ==> |M[i]| == |b|
    ensures forall i, j {:trigger M[i][j]} :: 0 <= i < |a| && 0 <= j < |b| ==> M[i][j] == a[i] * b[j]
  {
    seq(|a|, i requires 0 <= i < |a| => seq(|b|, j requires 0 <= j < |b| => a[i] * b[j]))
  }

  function MatAdd(P: Matrix, Q: Matrix, n: nat): (R: Matrix)
    requires IsSquare(P, n) && IsSquare(Q, n)
    ensures IsSquare(R, n)
    ensures forall i, j {:trigger R[i][j]} :: 0 <= i < n && 0 <= j < n ==> R[i][j] == P[i][j] + Q[i][j]
  {
    seq(n, i requires 0 <= i < n => seq(n, j requires 0 <= j < n => P[i][j] + Q[i][j]))
  }

  function MatSub(P: Matrix, Q: Matrix, n: nat): (R: Matrix)
    requires IsSquare(P, n) && IsSquare(Q, n)
    ensures IsSquare(R, n)
    ensures forall i, j {:trigger R[i][j]} :: 0 <= i < n && 0 <= j < n ==> R[i][j] == P[i][j] - Q[i][j]
  {
    seq(n, i requires 0 <= i < n => seq(n, j requires 0 <= j < n => P[i][j] - Q[i][j]))
  }

  function MatScale(c: real, P: Matrix, n: nat): (R: Matrix)
    requires IsSquare(P, n)
    ensures IsSquare(R, n)
    ensures forall i, j {:trigger R[i][j]} :: 0 <= i < n && 0 <= j < n ==> R[i][j] == c * P[i][j]
  {
    seq(n, i requires 0 <= i < n => seq(n, j requires 0 <= j < n => c * P[i][j]))
  }

  function Column(Q: Matrix, j: nat, n: nat): (c: Vector)
    requires IsSquare(Q, n) && j < n
    ensures |c| == n
  {
    seq(n, k requires 0 <= k < n => Q[k][j])
  }

  function MatMul(P: Matrix, Q: Matrix, n: nat): (R: Matrix)
    requires IsSquare(P, n) && IsSquare(Q, n)
    ensures IsSquare(R, n)
    ensures forall i, j {:trigger R[i][j]} :: 0 <= i < n && 0 <= j < n ==> R[i][j] == Dot(P[i], Column(Q, j, n))
  {
    seq(n, i requires 0 <= i < n => seq(n, j requires 0 <= j < n => Dot(P[i], Column(Q, j, n))))
  }

  /** Sum of the first k diagonal entries. */
  function DiagSum(M: Matrix, n: nat, k: nat): (r: real)
    requires IsSquare(M, n) && k <= n
  {
    if k == 0 then 0.0 else DiagSum(M, n, k - 1) + M[k - 1][k - 1]
  }

  function Trace(M: Matrix, n: nat): (t: real)
    requires IsSquare(M, n)
  {
    DiagSum(M, n, n)
  }

  lemma {:induction false} DiagSumAdd(P: Matrix, Q: Matrix, n: nat, k: nat)
    requires IsSquare(P, n) && IsSquare(Q, n) && k <= n
    ensures DiagSum(MatAdd(P, Q, n), n, k) == DiagSum(P, n, k) + DiagSum(Q, n, k)
  {
    if k > 0 {
      DiagSumAdd(P, Q, n, k - 1);
    }
  }

  lemma {:induction false} DiagSumSub(P: Matrix, Q: Matrix, n: nat, k: nat)
    requires IsSquare(P, n) && IsSquare(Q, n) && k <= n
    ensures DiagSum(MatSub(P, Q, n), n, k) == DiagSum(P, n, k) - DiagSum(Q, n, k)
  {
    if k > 0 {
      DiagSumSub(P, Q, n, k - 1);
    }
  }

  lemma {:induction false} DiagSumScale(c: real, P: Matrix, n: nat, k: nat)
    requires IsSquare(P, n) && k <= n
    ensures DiagSum(MatScale(c, P, n), n, k) == c * DiagSum(P, n, k)
  {
    if k > 0 {
      DiagSumScale(c, P, n, k - 1);
    }
  }

  lemma {:induction false} DiagSumIdentity(n: nat, k: nat)
    requires k <= n
    ensures DiagSum(Identity(n), n, k) == k as real
  {
    if k > 0 {
      DiagSumIdentity(n, k - 1);
    }
  }

  lemma {:induction false} DiagSumOuter(z: Vector, k: nat)
    requires k <= |z|
    ensures IsSquare(Outer(z, z), |z|)
    ensures DiagSum(Outer(z, z), |z|, k) == SqNorm(z[..k])
  {
    if k > 0 {
      DiagSumOuter(z, k - 1);
      assert z[..k][..k - 1] == z[..k - 1];
    }
  }

  /** The trace is additive. */
  lemma TraceAdd(P: Matrix, Q: Matrix, n: nat)
    requires IsSquare(P, n) && IsSquare(Q, n)
    ensures Trace(MatAdd(P, Q, n), n) == Trace(P, n) + Trace(Q, n)
  {
    DiagSumAdd(P, Q, n, n);
  }

  lemma TraceSub(P: Matrix, Q: Matrix, n: nat)
    requires IsSquare(P, n) && IsSquare(Q, n)
    ensures Trace(MatSub(P, Q, n), n) == Trace(P, n) - Trace(Q, n)
  {
    DiagSumSub(P, Q, n, n);
  }

  lemma TraceScale(c: real, P: Matrix, n: nat)
    requires IsSquare(P, n)
    ensures Trace(MatScale(c, P, n), n) == c * Trace(P, n)
  {
    DiagSumScale(c, P, n, n);
  }

  lemma TraceAddKnown(P: Matrix, Q: Matrix, n: nat, a: real, b: real)
    requires IsSquare(P, n) && IsSquare(Q, n) && Trace(P, n) == a && Trace(Q, n) == b
    ensures Trace(MatAdd(P, Q, n), n) == a + b
  {
    TraceAdd(P, Q, n);
  }

  lemma TraceScaleAdd(c: real, P: Matrix, Q: Matrix, n: nat)
    requires IsSquare(P, n) && IsSquare(Q, n)
    ensures Trace(MatScale(c, MatAdd(P, Q, n), n), n) == c * (Trace(P, n) + Trace(Q, n))
  {
    TraceAdd(P, Q, n);
    TraceScale(c, MatAdd(P, Q, n), n);
  }

  /** The n x n identity has trace n. */
  lemma TraceIdentity(n: nat)
    ensures Trace(Identity(n), n) == n as real
  {
    DiagSumIdentity(n, n);
  }

  /** tr(z·zᵗ) is the squared length of z. */
  lemma TraceOuter(z: Vector)
    ensures IsSquare(Outer(z, z), |z|)
    ensures Trace(Outer(z, z), |z|) == SqNorm(z)
  {
    DiagSumOuter(z, |z|);
    assert z[..|z|] == z;
  }
}
