/**
  Sampling of one generation: each individual draws a standard-normal noise
  vector z, becomes the candidate x = mean + A·z, and every coordinate of x
  outside the box is replaced by a uniform draw inside it. The noise vector
  z is kept as drawn; only x is repaired and written into the population.
 */
module Sampling {
  import opened LinAlg
  import opened Population

  /** The source's test for a coordinate that needs repair. */
  predicate OutOfBox(v: real, lo: real, hi: real) {
    v < lo || v > hi
  }

  /** Number of the first j coordinates of x that lie outside the box; each
      of them consumes one uniform draw during repair. */
  function OutCount(x: Vector, lb: Vector, ub: Vector, j: nat): (c: nat)
    requires j <= |x| && |lb| == |x| && |ub| == |x|
  {
    if j == 0 then 0
    else OutCount(x, lb, ub, j - 1) + (if OutOfBox(x[j - 1], lb[j - 1], ub[j - 1]) then 1 else 0)
  }

  /** The uniform draws lie in [0, 1). */
  ghost predicate UnitDraws(uniforms: nat -> real) {
    forall k :: 0.0 <= uniforms(k) < 1.0
  }

  /** n consecutive standard-normal draws starting at position pos. */
  function NormalDraws(normals: nat -> real, pos: nat, n: nat): (z: Vector)
    ensures |z| == n
  {
    seq(n, j requires 0 <= j < n => normals(pos + j))
  }

  /** The new individual before repair: mean + A z. */
  function Candidate(mean: Vector, A: Matrix, z: Vector): (x: Vector)
    requires IsSquare(A, |mean|) && |z| == |mean|
    ensures |x| == |mean|
  {
    VecAdd(mean, MatVec(A, z))
  }

  /** Coordinate j of the candidate is mean_j plus row j of A applied to z. */
  lemma CandidateAt(mean: Vector, A: Matrix, z: Vector, j: nat)
    requires IsSquare(A, |mean|) && |z| == |mean| && j < |mean|
    ensures Candidate(mean, A, z)[j] == mean[j] + Dot(A[j], z)
  {
  }

  /** A point lo + r (hi - lo) with r in [0, 1) lies in [lo, hi]. */
  lemma UniformInBox(lo: real, hi: real, r: real)
    requires lo <= hi && 0.0 <= r < 1.0
    ensures lo <= lo + r * (hi - lo) <= hi
  {
    var d, s := hi - lo, 1.0 - r;
    assert 0.0 <= r * d;
    assert 0.0 <= s * d;
    assert s * d == d - r * d;
  }

  /** The replacement value lb + r (ub - lb) for a uniform draw r. */
  function Rescale(lo: real, hi: real, r: real): (v: real)
    ensures lo <= hi && 0.0 <= r < 1.0 ==> lo <= v <= hi
  {
    if lo <= hi && 0.0 <= r < 1.0 then UniformInBox(lo, hi, r); lo + r * (hi - lo)
    else lo + r * (hi - lo)
  }

  /** The candidate after coordinate-wise bound repair: every coordinate
      outside the box is replaced by a uniform draw inside it, the draws taken
      in order from position pos on, one per repaired coordinate. */
  function Repaired(x: Vector, lb: Vector, ub: Vector, uniforms: nat -> real, pos: nat): (y: Vector)
    requires |lb| == |x| && |ub| == |x|
    ensures |y| == |x|
  {
    seq(|x|, j requires 0 <= j < |x| =>
      if OutOfBox(x[j], lb[j], ub[j]) then Rescale(lb[j], ub[j], uniforms(pos + OutCount(x, lb, ub, j)))
      else x[j])
  }

  /** Each coordinate outside the box is replaced by the next unused uniform
      draw, rescaled to its bounds: the j-th coordinate takes the draw after
      those of the out-of-box coordinates before it. */
  lemma RepairDraws(x: Vector, lb: Vector, ub: Vector, uniforms: nat -> real, pos: nat, j: nat)
    requires |lb| == |x| && |ub| == |x| && j < |x| && OutOfBox(x[j], lb[j], ub[j])
    ensures Repaired(x, lb, ub, uniforms, pos)[j] == Rescale(lb[j], ub[j], uniforms(pos + OutCount(x, lb, ub, j)))
    ensures OutCount(x, lb, ub, j + 1) == OutCount(x, lb, ub, j) + 1
  {
  }

  /** Repair puts every coordinate in the box and leaves the coordinates that
      were already inside untouched. */
  lemma RepairedInBox(x: Vector, lb: Vector, ub: Vector, uniforms: nat -> real, pos: nat)
    requires |lb| == |x| && |ub| == |x|
    requires forall j :: 0 <= j < |x| ==> lb[j] <= ub[j]
    requires UnitDraws(uniforms)
    ensures forall j :: 0 <= j < |x| ==> lb[j] <= Repaired(x, lb, ub, uniforms, pos)[j] <= ub[j]
    ensures forall j :: 0 <= j < |x| && !OutOfBox(x[j], lb[j], ub[j]) ==> Repaired(x, lb, ub, uniforms, pos)[j] == x[j]
  {
  }

  /** Coordinate-wise bound repair of one candidate, as the source's loop
      does it: in order, one uniform draw per coordinate outside the box. */
  method Repair(x: Vector, lb: Vector, ub: Vector, uniforms: nat -> real, pos: nat)
    returns (y: Vector, next: nat)
    requires |lb| == |x| && |ub| == |x|
    ensures y == Repaired(x, lb, ub, uniforms, pos)
    ensures next == pos + OutCount(x, lb, ub, |x|)
  {
    y, next := x, pos;
    for j := 0 to |x|
      invariant |y| == |x|
      invariant next == pos + OutCount(x, lb, ub, j)
      invariant forall k :: 0 <= k < j ==> y[k] == Repaired(x, lb, ub, uniforms, pos)[k]
      invariant forall k :: j <= k < |x| ==> y[k] == x[k]
    {
      if y[j] < lb[j] || y[j] > ub[j] {
        y := y[j := lb[j] + uniforms(next) * (ub[j] - lb[j])];
        next := next + 1;
      }
    }
  }

  /** Where the i-th block of n draws starts, counting from zPos. */
  function BlockStart(zPos: nat, n: nat, i: nat): (p: nat) {
    if i == 0 then zPos else BlockStart(zPos, n, i - 1) + n
  }

  /** Block i starts i·n draws after zPos. */
  lemma {:induction false} BlockStartOffset(zPos: nat, n: nat, i: nat)
    ensures BlockStart(zPos, n, i) == zPos + i * n
  {
    if i > 0 {
      BlockStartOffset(zPos, n, i - 1);
      assert (i - 1) * n + n == i * n;
    }
  }

  /** The noise vector of individual i: the i-th block of n normal draws. */
  function Noise(normals: nat -> real, zPos: nat, n: nat, i: nat): (z: Vector)
    ensures |z| == n
  {
    NormalDraws(normals, BlockStart(zPos, n, i), n)
  }

  /** The noise vectors of individuals 0..count-1. */
  function NoiseBlock(normals: nat -> real, zPos: nat, n: nat, count: nat): (z: seq<Vector>)
    ensures |z| == count && forall i :: 0 <= i < count ==> |z[i]| == n
  {
    if count == 0 then [] else NoiseBlock(normals, zPos, n, count - 1) + [Noise(normals, zPos, n, count - 1)]
  }

  /** Entry i of the block is individual i's noise vector. */
  lemma {:induction false} NoiseBlockAt(normals: nat -> real, zPos: nat, n: nat, count: nat, i: nat)
    requires i < count
    ensures NoiseBlock(normals, zPos, n, count)[i] == Noise(normals, zPos, n, i)
  {
    if i < count - 1 {
      NoiseBlockAt(normals, zPos, n, count - 1, i);
    }
  }

  datatype Sample = Sample(pop: Population, rNext: nat)

  /** The population once individuals 0..i-1 have been drawn, repaired and
      written back, with the position of the next unused uniform draw. */
  function SampledUpTo(prob: Problem, pop: Population, mean: Vector, A: Matrix,
                       normals: nat -> real, uniforms: nat -> real, zPos: nat, rPos: nat, i: nat): (r: Sample)
    requires WellFormed(prob) && Fits(pop, prob) && i <= |pop.xs|
    requires |mean| == prob.nx && IsSquare(A, prob.nx)
    ensures Fits(r.pop, prob) && |r.pop.xs| == |pop.xs|
  {
    if i == 0 then Sample(pop, rPos)
    else
      var prev := SampledUpTo(prob, pop, mean, A, normals, uniforms, zPos, rPos, i - 1);
      var x := Candidate(mean, A, Noise(normals, zPos, prob.nx, i - 1));
      Sample(SetX(prev.pop, prob, i - 1, Repaired(x, prob.lb, prob.ub, uniforms, prev.rNext)),
             prev.rNext + OutCount(x, prob.lb, prob.ub, prob.nx))
  }

  /** What individual k is written as: the repaired candidate of its own
      noise vector, repaired with the uniform draws that follow those of the
      individuals before it. */
  function Written(prob: Problem, pop: Population, mean: Vector, A: Matrix,
                   normals: nat -> real, uniforms: nat -> real, zPos: nat, rPos: nat, k: nat): (x: Vector)
    requires WellFormed(prob) && Fits(pop, prob) && k < |pop.xs|
    requires |mean| == prob.nx && IsSquare(A, prob.nx)
    ensures |x| == prob.nx
  {
    Repaired(Candidate(mean, A, Noise(normals, zPos, prob.nx, k)), prob.lb, prob.ub, uniforms,
             SampledUpTo(prob, pop, mean, A, normals, uniforms, zPos, rPos, k).rNext)
  }

  /** Individual i-1 is written last: the population after i individuals is
      the one after i-1 with that individual set, and the uniform cursor
      only moves forward. */
  lemma SampledUpToStep(prob: Problem, pop: Population, mean: Vector, A: Matrix,
                        normals: nat -> real, uniforms: nat -> real, zPos: nat, rPos: nat, i: nat)
    requires WellFormed(prob) && Fits(pop, prob) && 1 <= i <= |pop.xs|
    requires |mean| == prob.nx && IsSquare(A, prob.nx)
    ensures var prev := SampledUpTo(prob, pop, mean, A, normals, uniforms, zPos, rPos, i - 1);
            var r := SampledUpTo(prob, pop, mean, A, normals, uniforms, zPos, rPos, i);
            && r.pop == SetX(prev.pop, prob, i - 1, Written(prob, pop, mean, A, normals, uniforms, zPos, rPos, i - 1))
            && prev.rNext <= r.rNext
  {
  }

  /** After i individuals: i evaluations spent, the uniform cursor not moved
      back, individuals i on untouched and individuals before i evaluated. */
  lemma {:induction false} SampledUpToCounts(prob: Problem, pop: Population, mean: Vector, A: Matrix,
                        normals: nat -> real, uniforms: nat -> real, zPos: nat, rPos: nat, i: nat)
    requires WellFormed(prob) && Fits(pop, prob) && i <= |pop.xs|
    requires |mean| == prob.nx && IsSquare(A, prob.nx)
    ensures var r := SampledUpTo(prob, pop, mean, A, normals, uniforms, zPos, rPos, i);
            && r.pop.fevals == pop.fevals + i && rPos <= r.rNext
            && (forall k :: i <= k < |pop.xs| ==> r.pop.xs[k] == pop.xs[k] && r.pop.fs[k] == pop.fs[k])
            && (forall k :: 0 <= k < i ==> r.pop.fs[k] == prob.fitness(r.pop.xs[k]))
  {
    if i > 0 {
      SampledUpToCounts(prob, pop, mean, A, normals, uniforms, zPos, rPos, i - 1);
      SampledUpToStep(prob, pop, mean, A, normals, uniforms, zPos, rPos, i);
      SetXKeepsOthers(SampledUpTo(prob, pop, mean, A, normals, uniforms, zPos, rPos, i - 1).pop, prob, i - 1, Written(prob, pop, mean, A, normals, uniforms, zPos, rPos, i - 1));
    }
  }

  /** After i individuals, each of them holds its repaired candidate. */
  lemma {:induction false} SampledUpToWritten(prob: Problem, pop: Population, mean: Vector, A: Matrix,
                        normals: nat -> real, uniforms: nat -> real, zPos: nat, rPos: nat, i: nat)
    requires WellFormed(prob) && Fits(pop, prob) && i <= |pop.xs|
    requires |mean| == prob.nx && IsSquare(A, prob.nx)
    ensures var r := SampledUpTo(prob, pop, mean, A, normals, uniforms, zPos, rPos, i);
            forall k :: 0 <= k < i ==> r.pop.xs[k] == Written(prob, pop, mean, A, normals, uniforms, zPos, rPos, k)
  {
    if i > 0 {
      SampledUpToWritten(prob, pop, mean, A, normals, uniforms, zPos, rPos, i - 1);
      SampledUpToStep(prob, pop, mean, A, normals, uniforms, zPos, rPos, i);
      SetXKeepsOthers(SampledUpTo(prob, pop, mean, A, normals, uniforms, zPos, rPos, i - 1).pop, prob, i - 1, Written(prob, pop, mean, A, normals, uniforms, zPos, rPos, i - 1));
    }
  }

  /** After i individuals: each of them holds the repaired candidate of its
      own noise vector with its fitness, the rest are untouched, and i fitness
      evaluations have been spent. */
  lemma SampledUpToShape(prob: Problem, pop: Population, mean: Vector, A: Matrix,
                        normals: nat -> real, uniforms: nat -> real, zPos: nat, rPos: nat, i: nat)
    requires WellFormed(prob) && Fits(pop, prob) && i <= |pop.xs|
    requires |mean| == prob.nx && IsSquare(A, prob.nx)
    ensures var r := SampledUpTo(prob, pop, mean, A, normals, uniforms, zPos, rPos, i);
            && r.pop.fevals == pop.fevals + i && rPos <= r.rNext
            && (forall k :: i <= k < |pop.xs| ==> r.pop.xs[k] == pop.xs[k] && r.pop.fs[k] == pop.fs[k])
            && (forall k :: 0 <= k < i ==> r.pop.fs[k] == prob.fitness(r.pop.xs[k]))
            && (forall k :: 0 <= k < i ==> r.pop.xs[k] == Written(prob, pop, mean, A, normals, uniforms, zPos, rPos, k))
  {
    SampledUpToCounts(prob, pop, mean, A, normals, uniforms, zPos, rPos, i);
    SampledUpToWritten(prob, pop, mean, A, normals, uniforms, zPos, rPos, i);
  }

  /** A sampled generation lies in the box, is evaluated, costs one fitness
      evaluation per individual, and keeps every coordinate of a candidate
      that was already inside the box. */
  lemma SampledGeneration(prob: Problem, pop: Population, mean: Vector, A: Matrix,
                          normals: nat -> real, uniforms: nat -> real, zPos: nat, rPos: nat)
    requires WellFormed(prob) && Fits(pop, prob)
    requires |mean| == prob.nx && IsSquare(A, prob.nx)
    requires UnitDraws(uniforms)
    ensures var r := SampledUpTo(prob, pop, mean, A, normals, uniforms, zPos, rPos, |pop.xs|);
            && r.pop.fevals == pop.fevals + |pop.xs|
            && Evaluated(r.pop, prob) && InBounds(r.pop, prob)
            && forall i, j :: 0 <= i < |pop.xs| && 0 <= j < prob.nx
                 && !OutOfBox(Candidate(mean, A, Noise(normals, zPos, prob.nx, i))[j], prob.lb[j], prob.ub[j])
                 ==> r.pop.xs[i][j] == Candidate(mean, A, Noise(normals, zPos, prob.nx, i))[j]
  {
    var r := SampledUpTo(prob, pop, mean, A, normals, uniforms, zPos, rPos, |pop.xs|);
    SampledUpToShape(prob, pop, mean, A, normals, uniforms, zPos, rPos, |pop.xs|);
    forall i | 0 <= i < |pop.xs|
      ensures forall j :: 0 <= j < prob.nx ==> prob.lb[j] <= r.pop.xs[i][j] <= prob.ub[j]
      ensures forall j :: 0 <= j < prob.nx
                && !OutOfBox(Candidate(mean, A, Noise(normals, zPos, prob.nx, i))[j], prob.lb[j], prob.ub[j])
                ==> r.pop.xs[i][j] == Candidate(mean, A, Noise(normals, zPos, prob.nx, i))[j]
    {
      var x := Candidate(mean, A, Noise(normals, zPos, prob.nx, i));
      var pos := SampledUpTo(prob, pop, mean, A, normals, uniforms, zPos, rPos, i).rNext;
      assert r.pop.xs[i] == Repaired(x, prob.lb, prob.ub, uniforms, pos)
        == Written(prob, pop, mean, A, normals, uniforms, zPos, rPos, i);
      RepairedInBox(x, prob.lb, prob.ub, uniforms, pos);
    }
  }

  /** Draws, repairs and writes back individual i. */
  method SampleOne(prob: Problem, pop: Population, mean: Vector, A: Matrix,
                   normals: nat -> real, uniforms: nat -> real, zPos: nat, rPos: nat, i: nat,
                   prev: Population, prevNext: nat)
    returns (zi: Vector, next: Population, rNext: nat)
    requires WellFormed(prob) && Fits(pop, prob) && i < |pop.xs|
    requires |mean| == prob.nx && IsSquare(A, prob.nx)
    requires Sample(prev, prevNext) == SampledUpTo(prob, pop, mean, A, normals, uniforms, zPos, rPos, i)
    ensures zi == Noise(normals, zPos, prob.nx, i)
    ensures Sample(next, rNext) == SampledUpTo(prob, pop, mean, A, normals, uniforms, zPos, rPos, i + 1)
  {
    zi := Noise(normals, zPos, prob.nx, i);
    var xi := Candidate(mean, A, zi);
    var yi;
    yi, rNext := Repair(xi, prob.lb, prob.ub, uniforms, prevNext);
    next := SetX(prev, prob, i, yi);
  }

  /** Draws and repairs a whole generation and writes it into the population,
      individual by individual. */
  method SampleGeneration(prob: Problem, pop: Population, mean: Vector, A: Matrix,
                          normals: nat -> real, uniforms: nat -> real, zPos: nat, rPos: nat)
    returns (z: seq<Vector>, next: Population, zNext: nat, rNext: nat)
    requires WellFormed(prob) && Fits(pop, prob)
    requires |mean| == prob.nx && IsSquare(A, prob.nx)
    ensures z == NoiseBlock(normals, zPos, prob.nx, |pop.xs|)
    ensures zNext == BlockStart(zPos, prob.nx, |pop.xs|)
    ensures Sample(next, rNext) == SampledUpTo(prob, pop, mean, A, normals, uniforms, zPos, rPos, |pop.xs|)
  {
    z, next, zNext, rNext := [], pop, zPos, rPos;
    for i := 0 to |pop.xs|
      invariant z == NoiseBlock(normals, zPos, prob.nx, i)
      invariant zNext == BlockStart(zPos, prob.nx, i)
      invariant Sample(next, rNext) == SampledUpTo(prob, pop, mean, A, normals, uniforms, zPos, rPos, i)
    {
      var zi;
      zi, next, rNext := SampleOne(prob, pop, mean, A, normals, uniforms, zPos, rPos, i, next, rNext);
      z := z + [zi];
      zNext := zNext + prob.nx;
    }
  }
}
