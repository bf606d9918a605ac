/**
  The xNES algorithm object. Its configuration (generations, learning rates,
  initial scale, tolerances, memory flag) is fixed when it is built; the
  seed, the verbosity, the search distribution kept between calls and the
  log of the last call are updated in place. Evolve checks the problem and
  the population, prepares the learning rates and the utilities, resets or
  keeps the distribution, and runs the generation loop.
 */
module Algorithm {
  import opened Wrappers
  import opened LinAlg
  import opened Numerics
  import opened Params
  import opened Population
  import opened Sampling
  import opened Ranking
  import opened Weights
  import opened NaturalGradient
  import opened Distribution
  import opened Logging
  import opened GenerationLoop

  /** Why evolve refuses a problem or a population. */
  datatype EvolveError =
    | Constrained(nc: nat)
    | MultiObjective(nf: nat)
    | PopulationTooSmall(lam: nat)

  /** The checks evolve makes before anything else, in the source's order:
      constraints, then objectives, then population size. */
  function Preamble(prob: Problem, lam: nat): (r: Outcome<EvolveError>)
    ensures r.Pass? <==> prob.nc == 0 && prob.nf == 1 && lam >= 4
    ensures prob.nc != 0 ==> r == Fail(Constrained(prob.nc))
    ensures prob.nc == 0 && prob.nf != 1 ==> r == Fail(MultiObjective(prob.nf))
    ensures prob.nc == 0 && prob.nf == 1 && lam < 4 ==> r == Fail(PopulationTooSmall(lam))
  {
    if prob.nc != 0 then Fail(Constrained(prob.nc))
    else if prob.nf != 1 then Fail(MultiObjective(prob.nf))
    else if lam < 4 then Fail(PopulationTooSmall(lam))
    else Pass
  }

  /** Four individuals pass the size check, although the documentation of
      evolve and the check's own error message ask for at least five. */
  lemma FourIndividualsAccepted(prob: Problem)
    requires prob.nc == 0 && prob.nf == 1
    ensures Preamble(prob, 4).Pass?
    ensures Preamble(prob, 3) == Fail(PopulationTooSmall(3))
  {
  }

  /** The checks as documented: at least five individuals. */
  function PreambleIntended(prob: Problem, lam: nat): (r: Outcome<EvolveError>)
    ensures r.Pass? <==> prob.nc == 0 && prob.nf == 1 && lam >= 5
    ensures prob.nc == 0 && prob.nf == 1 && lam < 5 ==> r == Fail(PopulationTooSmall(lam))
  {
    if prob.nc != 0 then Fail(Constrained(prob.nc))
    else if prob.nf != 1 then Fail(MultiObjective(prob.nf))
    else if lam < 5 then Fail(PopulationTooSmall(lam))
    else Pass
  }

  /** The documented and the written checks differ only for a valid
      problem with exactly four individuals. */
  lemma PreamblesDifferOnlyAtFour(prob: Problem, lam: nat)
    ensures PreambleIntended(prob, lam) != Preamble(prob, lam) <==> prob.nc == 0 && prob.nf == 1 && lam == 4
  {
  }

  /** What one evolve call keeps fixed: box sampling from the two draw
      streams, and the natural-gradient move with utilities u and the rates. */
  function CallSetting(prob: Problem, k: Kernel, normals: nat -> real, uniforms: nat -> real,
                       u: seq<real>, rates: Rates, ftol: real, xtol: real, verbosity: nat, fevals0: nat)
    : (env: Setting)
    requires WellFormed(prob) && UnitDraws(uniforms) && ExpmKeepsShape(k.expm) && |u| >= 1
    ensures Ready(env)
  {
    Setting(prob, k, normals, BoxSampler(prob, normals, uniforms), |u|,
            NaturalGradientMover(u, rates, k, prob.nx), ftol, xtol, verbosity, fevals0)
  }

  /** The reset transform as evolve builds it: the identity, then each
      diagonal entry set to the clamped box width times sigma. */
  method InitialTransform(lb: Vector, ub: Vector, s: real) returns (A: Matrix)
    requires |lb| == |ub|
    ensures A == InitialA(lb, ub, s)
  {
    var n := |lb|;
    A := Identity(n);
    for j := 0 to n
      invariant IsSquare(A, n)
      invariant forall r, c :: 0 <= r < n && 0 <= c < n ==>
                  A[r][c] == if r == c && r < j then Width(lb, ub, r) * s else if r == c then 1.0 else 0.0
    {
      A := A[j := A[j][j := Width(lb, ub, j) * s]];
    }
    forall r | 0 <= r < n
      ensures A[r] == InitialA(lb, ub, s)[r]
    {
      assert forall c :: 0 <= c < n ==> A[r][c] == InitialA(lb, ub, s)[r][c];
    }
  }

  /** The sampler of a call draws the whole population as SampledUpTo does. */
  lemma CallSample(env: Setting, uniforms: nat -> real, u: seq<real>, rates: Rates, st: RunState)
    requires WellFormed(env.prob) && UnitDraws(uniforms) && ExpmKeepsShape(env.k.expm) && |u| >= 1
    requires env == CallSetting(env.prob, env.k, env.normals, uniforms, u, rates, env.ftol, env.xtol, env.verbosity, env.fevals0)
    requires Fits(st.pop, env.prob) && Shaped(st.dist, env.prob.nx)
    ensures env.sample(st) == SampledUpTo(env.prob, st.pop, st.dist.mean, st.dist.A, env.normals, uniforms,
                                          st.zPos, st.rPos, |st.pop.xs|)
  {
  }

  /** The mover of a call is the natural-gradient update with u and the rates. */
  lemma CallAdvance(env: Setting, uniforms: nat -> real, u: seq<real>, rates: Rates,
                    d: Distribution, z: seq<Vector>, s: seq<nat>)
    requires WellFormed(env.prob) && UnitDraws(uniforms) && ExpmKeepsShape(env.k.expm) && |u| >= 1
    requires env == CallSetting(env.prob, env.k, env.normals, uniforms, u, rates, env.ftol, env.xtol, env.verbosity, env.fevals0)
    requires Ranked(u, z, s, env.prob.nx) && Shaped(d, env.prob.nx)
    ensures env.advance(d, z, s) == Advance(d, u, z, s, rates, env.k, env.prob.nx)
  {
  }

  /** The tests of a tenth generation: the step of the first individual
      against xtol, then the fitness spread against ftol. */
  method TestStop(env: Setting, st: RunState, pop: Population, g: nat, z0: Vector) returns (b: bool)
    requires WellFormed(env.prob) && Consistent(env, st) && |pop.fs| >= 1
    requires z0 == Noise(env.normals, st.zPos, env.prob.nx, 0)
    ensures b == (CheckDue(g) && (StepLength(env, st.dist.A, st.zPos) < env.xtol || Spread(pop.fs) < env.ftol))
  {
    RemIsMod(g, 10);
    if g % 10 == 0 {
      if env.k.norm(MatVec(st.dist.A, z0)) < env.xtol {
        return true;
      }
      var df := Abs(pop.fs[BestIdx(pop.fs)] - pop.fs[WorstIdx(pop.fs)]);
      if df < env.ftol {
        return true;
      }
    }
    return false;
  }

  /** Appends generation g's line when the verbosity asks for it. */
  method LogIfDue(env: Setting, log: seq<LogLine>, g: nat, pop: Population, dx: real, sigma: real)
    returns (r: seq<LogLine>)
    requires |pop.fs| >= 1 && env.fevals0 <= pop.fevals
    ensures r == Logged(env, log, g, pop, dx, sigma)
  {
    r := log;
    if env.verbosity > 0 {
      RemIsMod(g, env.verbosity);
      if g % env.verbosity == 1 || env.verbosity == 1 {
        var df := Abs(pop.fs[BestIdx(pop.fs)] - pop.fs[WorstIdx(pop.fs)]);
        r := r + [LogLine(g, pop.fevals - env.fevals0, pop.fs[BestIdx(pop.fs)], dx, df, sigma)];
      }
    }
  }

  /** Ranks the population and moves the distribution along the natural gradient. */
  method Move(env: Setting, uniforms: nat -> real, u: seq<real>, rates: Rates, st: RunState,
              pop: Population, z: seq<Vector>) returns (d: Distribution)
    requires WellFormed(env.prob) && UnitDraws(uniforms) && ExpmKeepsShape(env.k.expm) && |u| >= 1
    requires env == CallSetting(env.prob, env.k, env.normals, uniforms, u, rates, env.ftol, env.xtol, env.verbosity, env.fevals0)
    requires Consistent(env, st) && |pop.fs| == env.lam
    requires z == NoiseBlock(env.normals, st.zPos, env.prob.nx, env.lam)
    ensures d == Moved(env, st, pop)
  {
    var n := env.prob.nx;
    var s := SortByFitness(pop.fs);
    var dCenter, covGrad, covTrace := Gradients(u, z, s, n);
    CallAdvance(env, uniforms, u, rates, st.dist, z, s);
    CovSumTrace(u, z, s, n, |u|);
    d := Update(st.dist, dCenter, covGrad, covTrace, rates, env.k, n);
  }

  /** One generation on values: the state it starts from and the one it
      leaves, or where it stopped. */
  method Generate(env: Setting, uniforms: nat -> real, u: seq<real>, rates: Rates, st: RunState, g: nat)
    returns (r: Progress)
    requires WellFormed(env.prob) && UnitDraws(uniforms) && ExpmKeepsShape(env.k.expm) && |u| >= 1
    requires env == CallSetting(env.prob, env.k, env.normals, uniforms, u, rates, env.ftol, env.xtol, env.verbosity, env.fevals0)
    requires Consistent(env, st)
    ensures r == Generation(env, st, g)
  {
    var n := env.prob.nx;
    var z, next, zNext, rNext := SampleGeneration(env.prob, st.pop, st.dist.mean, st.dist.A, env.normals, uniforms,
                                                   st.zPos, st.rPos);
    CallSample(env, uniforms, u, rates, st);
    assert NextPopulation(env, st) == Sample(next, rNext);
    NoiseBlockAt(env.normals, st.zPos, n, env.lam, 0);
    var stop := TestStop(env, st, next, g, z[0]);
    if stop {
      return Stopped(RunState(next, st.dist, st.log, zNext, rNext), g);
    }
    var dx := env.k.norm(MatVec(st.dist.A, z[0]));
    var log := LogIfDue(env, st.log, g, next, dx, st.dist.sigma);
    var d := Move(env, uniforms, u, rates, st, next, z);
    r := Running(RunState(next, d, log, zNext, rNext));
  }

  class Xnes {
    const gen: nat
    const configured: Rates
    const sigma0: real
    const ftol: real
    const xtol: real
    const memory: bool
    var seed: nat
    var verbosity: nat
    var mean: Vector
    var A: Matrix
    var sigma: real
    var log: seq<LogLine>
    /** Whether an evolve call has set the distribution from a problem yet. */
    var initialised: bool

    /** The distribution kept between calls. */
    function Memory(): (d: Distribution)
      reads this
    {
      Distribution(mean, A, sigma)
    }

    /** The configuration passed the constructor's checks, and A is square
        in the dimension of the mean. */
    ghost predicate Valid()
      reads this
    {
      && CheckParams(configured.etaMu, configured.etaSigma, configured.etaB, sigma0).Pass?
      && Shaped(Memory(), |mean|)
    }

    /** Builds the algorithm from parameters the constructor's checks accept;
        the distribution starts one-dimensional, with sigma the configured
        sigma0, and the verbosity at 0. */
    constructor(gen: nat, etaMu: real, etaSigma: real, etaB: real, sigma0: real,
                ftol: real, xtol: real, memory: bool, seed: nat)
      requires CheckParams(etaMu, etaSigma, etaB, sigma0).Pass?
      ensures Valid()
      ensures this.gen == gen && configured == Rates(etaMu, etaSigma, etaB) && this.sigma0 == sigma0
      ensures this.ftol == ftol && this.xtol == xtol && this.memory == memory && this.seed == seed
      ensures verbosity == 0 && log == [] && Memory() == Constructed(sigma0) && !initialised
    {
      this.gen := gen;
      configured := Rates(etaMu, etaSigma, etaB);
      this.sigma0 := sigma0;
      this.ftol := ftol;
      this.xtol := xtol;
      this.memory := memory;
      this.seed := seed;
      verbosity := 0;
      log := [];
      sigma := sigma0;
      mean := [0.0];
      A := Identity(1);
      initialised := false;
    }

    /** The constructor with its checks: the first parameter outside ]0,1]
        that is not the sentinel is reported, otherwise the algorithm is built. */
    static method Create(gen: nat, etaMu: real, etaSigma: real, etaB: real, sigma0: real,
                         ftol: real, xtol: real, memory: bool, seed: nat)
      returns (r: Result<Xnes, ParamError>)
      ensures r.Failure? <==> CheckParams(etaMu, etaSigma, etaB, sigma0).Fail?
      ensures r.Failure? ==> CheckParams(etaMu, etaSigma, etaB, sigma0) == Fail(r.error)
      ensures r.Success? ==> && fresh(r.value) && r.value.Valid()
                             && r.value.gen == gen && r.value.configured == Rates(etaMu, etaSigma, etaB)
                             && r.value.sigma0 == sigma0 && r.value.ftol == ftol && r.value.xtol == xtol
                             && r.value.memory == memory && r.value.seed == seed
                             && r.value.verbosity == 0 && r.value.log == []
                             && r.value.Memory() == Constructed(sigma0) && !r.value.initialised
    {
      var check := CheckParams(etaMu, etaSigma, etaB, sigma0);
      if check.Fail? {
        return Failure(check.error);
      }
      var x := new Xnes(gen, etaMu, etaSigma, etaB, sigma0, ftol, xtol, memory, seed);
      return Success(x);
    }

    method SetSeed(s: nat)
      modifies this
      ensures seed == s
      ensures verbosity == old(verbosity) && Memory() == old(Memory()) && log == old(log)
      ensures initialised == old(initialised)
    {
      seed := s;
    }

    method SetVerbosity(level: nat)
      modifies this
      ensures verbosity == level
      ensures seed == old(seed) && Memory() == old(Memory()) && log == old(log)
      ensures initialised == old(initialised)
    {
      verbosity := level;
    }

    /** Resets the distribution when it was never set from a problem, when
        memory is off or when the stored mean has another dimension than the
        problem; otherwise keeps it. */
    method ResetOrRetain(prob: Problem, best: Vector)
      requires Valid() && WellFormed(prob) && |best| == prob.nx
      modifies this
      ensures Valid() && Shaped(Memory(), prob.nx)
      ensures Memory() == StartOfCallIntended(memory, old(initialised), old(Memory()), sigma0, prob.lb, prob.ub, best)
      ensures initialised
      ensures seed == old(seed) && verbosity == old(verbosity) && log == old(log)
    {
      if !initialised || (|mean| != prob.nx) || (memory == false) {
        if sigma0 == Auto {
          sigma := 1.0;
        } else {
          sigma := sigma0;
        }
        A := InitialTransform(prob.lb, prob.ub, sigma);
        mean := best;
      }
      initialised := true;
    }

    /** One call of evolve. It refuses constrained or multi-objective
        problems and populations of fewer than five individuals; with zero
        generations it returns the population untouched, keeping the log of
        the previous call. Otherwise it clears the log, resets or keeps the
        distribution, and runs generations 1..gen until a tolerance stops it,
        updating the distribution and the log in place. */
    method Evolve(prob: Problem, pop: Population, k: Kernel, normals: nat -> real, uniforms: nat -> real)
      returns (r: Result<Population, EvolveError>)
      requires Valid() && Numerics.Valid(k) && WellFormed(prob) && Fits(pop, prob) && UnitDraws(uniforms)
      modifies this
      ensures Valid() && seed == old(seed) && verbosity == old(verbosity)
      ensures r.Failure? <==> PreambleIntended(prob, |pop.xs|).Fail?
      ensures r.Failure? ==> && PreambleIntended(prob, |pop.xs|) == Fail(r.error)
                             && Memory() == old(Memory()) && log == old(log) && initialised == old(initialised)
      ensures r.Success? && gen == 0 ==>
                r.value == pop && Memory() == old(Memory()) && log == old(log) && initialised == old(initialised)
      ensures r.Success? && gen > 0 ==> initialised
      ensures r.Success? && gen > 0 ==>
                var lam := |pop.xs|;
                var env := CallSetting(prob, k, normals, uniforms, Utilities(k.ln, lam),
                                       IntendedRates(configured, CommonDefault(k, prob.nx)),
                                       ftol, xtol, verbosity, pop.fevals);
                var start := StartOfCallIntended(memory, old(initialised), old(Memory()), sigma0,
                                                 prob.lb, prob.ub, pop.xs[BestIdx(pop.fs)]);
                var p := Run(env, GenerationStep(env), RunState(pop, start, [], 0, 0), gen);
                r.value == p.st.pop && Memory() == p.st.dist && log == p.st.log
    {
      var lam := |pop.xs|;
      if prob.nc != 0 {
        return Failure(Constrained(prob.nc));
      }
      if prob.nf != 1 {
        return Failure(MultiObjective(prob.nf));
      }
      if lam < 5 {
        return Failure(PopulationTooSmall(lam));
      }
      if gen == 0 {
        return Success(pop);
      }
      log := [];
      var n := prob.nx;
      var rates := IntendedRates(configured, CommonDefault(k, n));
      var u := ComputeUtilities(k.ln, lam);
      ResetOrRetain(prob, pop.xs[BestIdx(pop.fs)]);
      var env := CallSetting(prob, k, normals, uniforms, u, rates, ftol, xtol, verbosity, pop.fevals);
      var last := RunGenerations(env, uniforms, u, rates, pop);
      return Success(last);
    }

    /** The generation loop of evolve: generations 1..gen from the current
        distribution and an empty log, updating both in place, until a
        tolerance stops the call. */
    method RunGenerations(env: Setting, uniforms: nat -> real, u: seq<real>, rates: Rates, pop: Population)
      returns (last: Population)
      requires Valid() && WellFormed(env.prob) && UnitDraws(uniforms) && ExpmKeepsShape(env.k.expm) && |u| >= 1
      requires env == CallSetting(env.prob, env.k, env.normals, uniforms, u, rates, env.ftol, env.xtol, env.verbosity, env.fevals0)
      requires Consistent(env, RunState(pop, Memory(), [], 0, 0))
      modifies this
      ensures Valid() && seed == old(seed) && verbosity == old(verbosity) && initialised == old(initialised)
      ensures var p := Run(env, GenerationStep(env), RunState(pop, old(Memory()), [], 0, 0), gen);
              last == p.st.pop && Memory() == p.st.dist && log == p.st.log
    {
      ghost var st0 := RunState(pop, Memory(), [], 0, 0);
      log := [];
      var cur, zPos, rPos := pop, 0, 0;
      for g := 1 to gen + 1
        invariant Valid() && seed == old(seed) && verbosity == old(verbosity) && initialised == old(initialised)
        invariant Run(env, GenerationStep(env), st0, g - 1) == Running(RunState(cur, Memory(), log, zPos, rPos))
      {
        var st := RunState(cur, Memory(), log, zPos, rPos);
        RunContinues(env, st0, g, st);
        var step := Generate(env, uniforms, u, rates, st, g);
        if step.Stopped? {
          StoppedStays(env, GenerationStep(env), st0, g, gen);
          return step.st.pop;
        }
        Keep(step.st.dist, step.st.log);
        cur, zPos, rPos := step.st.pop, step.st.zPos, step.st.rPos;
      }
      return cur;
    }

    /** Stores distribution d and log l as the object's memory and log. */
    method Keep(d: Distribution, l: seq<LogLine>)
      requires Valid() && Shaped(d, |d.mean|)
      modifies this
      ensures Valid() && Memory() == d && log == l
      ensures seed == old(seed) && verbosity == old(verbosity) && initialised == old(initialised)
    {
      mean, A, sigma, log := d.mean, d.A, d.sigma, l;
    }
  }
}
