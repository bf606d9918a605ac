/**
  The floating-point kernel of xNES: natural logarithm, exponential, square
  root, Euclidean norm and the matrix exponential. They are library calls
  (the C++ standard library and Eigen) and are kept abstract here: a
  `Kernel` value carries them, and `Valid` states the only facts about them
  that the bookkeeping around the numerics depends on.
 */
module Numerics {
  import opened LinAlg

  datatype Kernel = Kernel(
    ln: real -> real,
    exp: real -> real,
    sqrt: real -> real,
    norm: Vector -> real,
    expm: Matrix -> Matrix)

  /** The logarithm is strictly increasing on the positive reals. */
  ghost predicate LnIncreasing(ln: real -> real) {
    forall a, b :: 0.0 < a < b ==> ln(a) < ln(b)
  }

  /** The square root of a positive number is positive. */
  ghost predicate SqrtPositive(sqrt: real -> real) {
    forall a :: 0.0 < a ==> 0.0 < sqrt(a)
  }

  /** The matrix exponential of an n x n matrix is n x n. */
  ghost predicate ExpmKeepsShape(expm: Matrix -> Matrix) {
    forall M, n: nat :: IsSquare(M, n) ==> IsSquare(expm(M), n)
  }

  /** A norm is never negative. */
  ghost predicate NormNonNegative(norm: Vector -> real) {
    forall v :: 0.0 <= norm(v)
  }

  ghost predicate Valid(k: Kernel) {
    LnIncreasing(k.ln) && SqrtPositive(k.sqrt) && ExpmKeepsShape(k.expm)
  }

  function Abs(x: real): (r: real)
    ensures 0.0 <= r && (r == x || r == -x)
  {
    if x < 0.0 then -x else x
  }

  function Max(a: real, b: real): (r: real)
    ensures a <= r && b <= r && (r == a || r == b)
  {
    if a < b then b else a
  }
}
