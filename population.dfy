/**
  The collaborators xNES works on, reduced to what it reads and writes: a
  problem (dimension, box bounds, objective and constraint counts, a
  stochasticity flag and a deterministic fitness oracle) and a population
  (decision vectors, their single-objective fitness, and the problem's
  count of fitness evaluations).
 */
module Population {
  import opened LinAlg

  datatype Problem = Problem(
    nx: nat,
    lb: Vector,
    ub: Vector,
    nf: nat,
    nc: nat,
    stochastic: bool,
    fitness: Vector -> real)

  /** What a problem guarantees on construction: a positive dimension and
      bounds of that length with lb <= ub coordinate-wise. */
  predicate WellFormed(prob: Problem) {
    && prob.nx >= 1
    && |prob.lb| == prob.nx && |prob.ub| == prob.nx
    && forall j :: 0 <= j < prob.nx ==> prob.lb[j] <= prob.ub[j]
  }

  datatype Population = Population(xs: seq<Vector>, fs: seq<real>, fevals: nat)

  /** Every individual has a fitness and a decision vector of the problem's dimension. */
  predicate Fits(pop: Population, prob: Problem) {
    |pop.fs| == |pop.xs| && forall i :: 0 <= i < |pop.xs| ==> |pop.xs[i]| == prob.nx
  }

  /** Every decision vector lies in the problem's box. */
  predicate InBounds(pop: Population, prob: Problem)
    requires WellFormed(prob) && Fits(pop, prob)
  {
    forall i, j :: 0 <= i < |pop.xs| && 0 <= j < prob.nx ==> prob.lb[j] <= pop.xs[i][j] <= prob.ub[j]
  }

  /** Every stored fitness is the oracle's value of the stored decision vector. */
  predicate Evaluated(pop: Population, prob: Problem) {
    |pop.fs| == |pop.xs| && forall i :: 0 <= i < |pop.xs| ==> pop.fs[i] == prob.fitness(pop.xs[i])
  }

  /** Replaces individual i's decision vector; the population re-evaluates it,
      which costs one fitness evaluation. */
  function SetX(pop: Population, prob: Problem, i: nat, x: Vector): (r: Population)
    requires i < |pop.xs| && |pop.fs| == |pop.xs|
    ensures |r.xs| == |pop.xs| && |r.fs| == |pop.fs|
    ensures r.xs[i] == x && r.fs[i] == prob.fitness(x) && r.fevals == pop.fevals + 1
  {
    Population(pop.xs[i := x], pop.fs[i := prob.fitness(x)], pop.fevals + 1)
  }

  /** Setting individual i leaves every other individual and its fitness
      alone, so an evaluated population stays evaluated. */
  lemma SetXKeepsOthers(pop: Population, prob: Problem, i: nat, x: Vector)
    requires i < |pop.xs| && |pop.fs| == |pop.xs|
    ensures var r := SetX(pop, prob, i, x);
            forall k :: 0 <= k < |pop.xs| && k != i ==> r.xs[k] == pop.xs[k] && r.fs[k] == pop.fs[k]
    ensures Evaluated(pop, prob) ==> Evaluated(SetX(pop, prob, i, x), prob)
  {
  }

  /** Index of the first individual of least fitness. */
  function BestIdx(fs: seq<real>): (b: nat)
    requires |fs| > 0
    ensures b < |fs| && forall i :: 0 <= i < |fs| ==> fs[b] <= fs[i]
  {
    if |fs| == 1 then 0
    else
      var b := BestIdx(fs[..|fs| - 1]);
      if fs[|fs| - 1] < fs[b] then |fs| - 1 else b
  }

  /** Index of the first individual of greatest fitness. */
  function WorstIdx(fs: seq<real>): (w: nat)
    requires |fs| > 0
    ensures w < |fs| && forall i :: 0 <= i < |fs| ==> fs[i] <= fs[w]
  {
    if |fs| == 1 then 0
    else
      var w := WorstIdx(fs[..|fs| - 1]);
      if fs[|fs| - 1] > fs[w] then |fs| - 1 else w
  }
}
