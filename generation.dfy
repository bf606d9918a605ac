/**
  The generation loop of one evolve call, as a function of what the call
  starts from. Generation g (counted from 1) draws and repairs a new
  population; on every tenth generation it stops the call when the search
  has collapsed in decision space (|A·z_0| < xtol) or in fitness space
  (best-worst spread < ftol); otherwise it appends a log line when due and
  moves the distribution along the natural gradient of the ranked noise.
 */
module GenerationLoop {
  import opened LinAlg
  import opened Numerics
  import opened Params
  import opened Population
  import opened Sampling
  import opened Ranking
  import opened NaturalGradient
  import opened Distribution
  import opened Logging

  /** How a generation moves the distribution, given the noise vectors and
      their ranking. */
  type Mover = (Distribution, seq<Vector>, seq<nat>) -> Distribution

  /** How a generation draws, repairs and evaluates its population, given
      the state it starts from. */
  type Sampler = RunState -> Sample

  /** What stays fixed during one call: the problem, the numerical kernel,
      the random draws, the population size, the distribution update, the
      tolerances, the verbosity and the evaluation count when the call began. */
  datatype Setting = Setting(
    prob: Problem,
    k: Kernel,
    normals: nat -> real,
    sample: Sampler,
    lam: nat,
    advance: Mover,
    ftol: real,
    xtol: real,
    verbosity: nat,
    fevals0: nat)

  /** The natural-gradient update with utilities u, rates and kernel k, in
      dimension n. */
  function NaturalGradientMover(u: seq<real>, rates: Rates, k: Kernel, n: nat): (m: Mover)
    requires ExpmKeepsShape(k.expm) && n >= 1 && |u| >= 1
    ensures forall d, z, s :: Shaped(d, n) ==> Shaped(m(d, z, s), n)
  {
    (d: Distribution, z: seq<Vector>, s: seq<nat>) =>
      if Ranked(u, z, s, n) && Shaped(d, n) then Advance(d, u, z, s, rates, k, n) else d
  }

  /** r is a sound generation drawn from st: same size, one evaluation per
      individual, every individual inside the box and evaluated. */
  predicate SampleSound(prob: Problem, st: RunState, r: Sample)
    requires WellFormed(prob)
  {
    && Fits(r.pop, prob) && |r.pop.xs| == |st.pop.xs|
    && r.pop.fevals == st.pop.fevals + |st.pop.xs|
    && Evaluated(r.pop, prob) && InBounds(r.pop, prob)
  }

  /** xNES sampling: draw noise from `normals`, step from the mean along A,
      repair out-of-box coordinates from `uniforms`. */
  function BoxSampler(prob: Problem, normals: nat -> real, uniforms: nat -> real): (f: Sampler)
    requires WellFormed(prob) && UnitDraws(uniforms)
    ensures forall st: RunState :: Fits(st.pop, prob) && Shaped(st.dist, prob.nx) ==> SampleSound(prob, st, f(st))
  {
    var f := (st: RunState) =>
      if Fits(st.pop, prob) && Shaped(st.dist, prob.nx) then
        SampledUpTo(prob, st.pop, st.dist.mean, st.dist.A, normals, uniforms, st.zPos, st.rPos, |st.pop.xs|)
      else Sample(st.pop, st.rPos);
    assert forall st: RunState :: Fits(st.pop, prob) && Shaped(st.dist, prob.nx) ==> SampleSound(prob, st, f(st)) by {
      forall st: RunState | Fits(st.pop, prob) && Shaped(st.dist, prob.nx)
        ensures SampleSound(prob, st, f(st))
      {
        SampledUpToShape(prob, st.pop, st.dist.mean, st.dist.A, normals, uniforms, st.zPos, st.rPos, |st.pop.xs|);
        SampledGeneration(prob, st.pop, st.dist.mean, st.dist.A, normals, uniforms, st.zPos, st.rPos);
      }
    }
    f
  }

  /** What changes from one generation to the next: the population, the
      distribution, the log and the positions of the next unused draws. */
  datatype RunState = RunState(pop: Population, dist: Distribution, log: seq<LogLine>, zPos: nat, rPos: nat)

  /** A run either goes on, or was stopped by a tolerance at generation `at`. */
  datatype Progress = Running(st: RunState) | Stopped(st: RunState, at: nat)

  ghost predicate Ready(env: Setting) {
    && WellFormed(env.prob) && env.lam >= 1
    && (forall d, z, s :: Shaped(d, env.prob.nx) ==> Shaped(env.advance(d, z, s), env.prob.nx))
    && (forall st: RunState :: Fits(st.pop, env.prob) && Shaped(st.dist, env.prob.nx) ==> SampleSound(env.prob, st, env.sample(st)))
  }

  /** The state fits the setting: one utility per individual, the
      distribution in the problem's dimension, no evaluations un-spent. */
  predicate Consistent(env: Setting, st: RunState) {
    && Fits(st.pop, env.prob) && |st.pop.xs| == env.lam
    && Shaped(st.dist, env.prob.nx)
    && env.fevals0 <= st.pop.fevals
  }

  /** dx: the length of the first individual's step A·z_0. */
  function StepLength(env: Setting, A: Matrix, zPos: nat): (dx: real)
    requires WellFormed(env.prob) && IsSquare(A, env.prob.nx)
    ensures NormNonNegative(env.k.norm) ==> 0.0 <= dx
  {
    env.k.norm(MatVec(A, Noise(env.normals, zPos, env.prob.nx, 0)))
  }

  /** df: the spread between the best and the worst fitness. */
  function Spread(fs: seq<real>): (df: real)
    requires |fs| >= 1
    ensures df >= 0.0
  {
    Abs(fs[BestIdx(fs)] - fs[WorstIdx(fs)])
  }

  /** The spread bounds the difference of any two fitness values. */
  lemma SpreadBounds(fs: seq<real>, i: nat, j: nat)
    requires i < |fs| && j < |fs|
    ensures fs[i] - fs[j] <= Spread(fs)
  {
  }

  /** The log after generation g: one more line when g is due. */
  function Logged(env: Setting, log: seq<LogLine>, g: nat, pop: Population, dx: real, sigma: real): (r: seq<LogLine>)
    requires |pop.fs| >= 1 && env.fevals0 <= pop.fevals
    ensures LogDue(g, env.verbosity) ==> r == log + [LogLine(g, pop.fevals - env.fevals0, pop.fs[BestIdx(pop.fs)], dx, Spread(pop.fs), sigma)]
    ensures !LogDue(g, env.verbosity) ==> r == log
  {
    if LogDue(g, env.verbosity) then
      log + [LogLine(g, pop.fevals - env.fevals0, pop.fs[BestIdx(pop.fs)], dx, Spread(pop.fs), sigma)]
    else log
  }

  /** The population of generation g: every individual drawn and repaired
      from the current distribution. */
  function NextPopulation(env: Setting, st: RunState): (r: Sample)
    requires Ready(env) && Consistent(env, st)
    ensures Fits(r.pop, env.prob) && |r.pop.xs| == env.lam
    ensures r.pop.fevals == st.pop.fevals + env.lam
    ensures Evaluated(r.pop, env.prob) && InBounds(r.pop, env.prob)
  {
    env.sample(st)
  }

  /** Whether generation g stops the call: only on a tenth generation, when
      the step or the fitness spread has fallen below its tolerance. */
  function Stops(env: Setting, st: RunState, pop: Population, g: nat): (b: bool)
    requires Ready(env) && Consistent(env, st) && |pop.fs| >= 1
    ensures b ==> CheckDue(g)
  {
    CheckDue(g) && (StepLength(env, st.dist.A, st.zPos) < env.xtol || Spread(pop.fs) < env.ftol)
  }

  /** The distribution after generation g, from the population ranked by fitness. */
  function Moved(env: Setting, st: RunState, pop: Population): (d: Distribution)
    requires Ready(env) && Consistent(env, st) && |pop.fs| == env.lam
    ensures Shaped(d, env.prob.nx)
  {
    env.advance(st.dist, NoiseBlock(env.normals, st.zPos, env.prob.nx, env.lam), Rank(pop.fs, env.lam))
  }

  /** What generation g run from st promises: it stays consistent, leaves
      every individual evaluated and inside the box, spends one evaluation
      per individual, stops only on a tenth generation and then leaves the
      distribution and the log alone, and otherwise appends exactly the due
      log line. */
  predicate Follows(env: Setting, st: RunState, g: nat, r: Progress) {
    && WellFormed(env.prob) && Consistent(env, r.st)
    && Evaluated(r.st.pop, env.prob) && InBounds(r.st.pop, env.prob)
    && r.st.pop.fevals == st.pop.fevals + env.lam
    && (r.Stopped? ==> r.at == g && CheckDue(g) && r.st.dist == st.dist && r.st.log == st.log)
    && (r.Running? && !LogDue(g, env.verbosity) ==> r.st.log == st.log)
    && (r.Running? && LogDue(g, env.verbosity) ==>
          && |r.st.log| == |st.log| + 1 && r.st.log[..|st.log|] == st.log
          && r.st.log[|st.log|].gen == g
          && r.st.log[|st.log|].fevals == r.st.pop.fevals - env.fevals0)
  }

  /** Generation g run from state st. */
  function Generation(env: Setting, st: RunState, g: nat): (r: Progress)
    requires Ready(env) && Consistent(env, st)
    ensures Follows(env, st, g, r)
  {
    var next := NextPopulation(env, st);
    var zNext := BlockStart(st.zPos, env.prob.nx, env.lam);
    if Stops(env, st, next.pop, g) then
      Stopped(RunState(next.pop, st.dist, st.log, zNext, next.rNext), g)
    else
      var dx := StepLength(env, st.dist.A, st.zPos);
      Running(RunState(next.pop, Moved(env, st, next.pop), Logged(env, st.log, g, next.pop, dx, st.dist.sigma),
                       zNext, next.rNext))
  }

  /** One generation of a run, as the loop sees it. */
  type Step = (RunState, nat) -> Progress

  /** Every generation the step runs keeps the promises of Follows. */
  ghost predicate StepSound(env: Setting, step: Step) {
    forall st: RunState, g: nat :: Consistent(env, st) ==> Follows(env, st, g, step(st, g))
  }

  /** The xNES generation as a step. */
  function GenerationStep(env: Setting): (step: Step)
    requires Ready(env)
    ensures StepSound(env, step)
  {
    (st: RunState, g: nat) => if Consistent(env, st) then Generation(env, st, g) else Running(st)
  }

  /** The run after generations 1..g of `step`, or where it stopped. */
  function Run(env: Setting, step: Step, st0: RunState, g: nat): (r: Progress)
    requires StepSound(env, step) && Consistent(env, st0)
    ensures Consistent(env, r.st)
  {
    if g == 0 then Running(st0)
    else
      match Run(env, step, st0, g - 1)
      case Stopped(st, at) => Stopped(st, at)
      case Running(st) => step(st, g)
  }

  /** Once a run has sampled a generation, its population was drawn inside
      the box and evaluated. */
  lemma {:induction false} RunStaysInBox(env: Setting, step: Step, st0: RunState, g: nat)
    requires StepSound(env, step) && Consistent(env, st0) && g >= 1
    ensures var p := Run(env, step, st0, g);
            WellFormed(env.prob) && Evaluated(p.st.pop, env.prob) && InBounds(p.st.pop, env.prob)
  {
    var p := Run(env, step, st0, g - 1);
    if p.Running? {
      assert Follows(env, p.st, g, step(p.st, g));
    } else {
      RunStaysInBox(env, step, st0, g - 1);
    }
  }

  /** A stopped run stays where it stopped. */
  lemma {:induction false} StoppedStays(env: Setting, step: Step, st0: RunState, g: nat, h: nat)
    requires StepSound(env, step) && Consistent(env, st0) && g <= h
    requires Run(env, step, st0, g).Stopped?
    ensures Run(env, step, st0, h) == Run(env, step, st0, g)
  {
    if g < h {
      StoppedStays(env, step, st0, g, h - 1);
    }
  }

  /** A run of the xNES generation that is still going after g-1
      generations continues with generation g. */
  lemma RunContinues(env: Setting, st0: RunState, g: nat, st: RunState)
    requires Ready(env) && Consistent(env, st0) && g >= 1
    requires Run(env, GenerationStep(env), st0, g - 1) == Running(st)
    ensures Consistent(env, st)
    ensures Run(env, GenerationStep(env), st0, g) == Generation(env, st, g)
  {
  }

  /** Generations whose log line, if due, was written by the run up to g. */
  function Reported(p: Progress, g: nat): (h: nat) {
    if p.Stopped? && p.at >= 1 then p.at - 1 else if p.Stopped? then 0 else g
  }

  /** A run stops only on a generation that runs the stopping tests, and
      never after g. */
  lemma {:induction false} StopsOnlyOnChecks(env: Setting, step: Step, st0: RunState, g: nat)
    requires StepSound(env, step) && Consistent(env, st0)
    ensures Run(env, step, st0, g).Stopped? ==> 1 <= Run(env, step, st0, g).at <= g && CheckDue(Run(env, step, st0, g).at)
  {
    if g > 0 {
      StopsOnlyOnChecks(env, step, st0, g - 1);
    }
  }

  /** A generation's effect on the list of logged generations. */
  lemma FollowsLogGens(env: Setting, st: RunState, g: nat, r: Progress)
    requires Follows(env, st, g, r)
    ensures Gens(r.st.log) == Gens(st.log) + (if r.Running? && LogDue(g, env.verbosity) then [g] else [])
  {
    if r.Running? && LogDue(g, env.verbosity) {
      GensAppend(st.log, r.st.log);
    }
  }

  lemma GensAppend(log: seq<LogLine>, log': seq<LogLine>)
    requires |log'| == |log| + 1 && log'[..|log|] == log
    ensures Gens(log') == Gens(log) + [log'[|log|].gen]
  {
    assert log' == log + [log'[|log|]];
  }

  /** A generation run from a state whose log follows the schedule up to
      g - 1 leaves a log that follows it up to the generations it reported on. */
  lemma ScheduleAdvances(env: Setting, st: RunState, g: nat, r: Progress)
    requires g >= 1 && Follows(env, st, g, r)
    requires Gens(st.log) == Schedule(env.verbosity, g - 1)
    ensures Gens(r.st.log) == Schedule(env.verbosity, Reported(r, g))
  {
    FollowsLogGens(env, st, g, r);
    if r.Running? {
      ScheduleStep(env.verbosity, g);
    }
  }

  /** The logged generations are exactly the due ones among those the run
      reported on, in increasing order. */
  lemma {:induction false} LogFollowsSchedule(env: Setting, step: Step, st0: RunState, g: nat)
    requires StepSound(env, step) && Consistent(env, st0) && st0.log == []
    ensures var p := Run(env, step, st0, g);
            Gens(p.st.log) == Schedule(env.verbosity, Reported(p, g))
  {
    if g > 0 {
      LogFollowsSchedule(env, step, st0, g - 1);
      var p := Run(env, step, st0, g - 1);
      if p.Running? {
        ScheduleAdvances(env, p.st, g, step(p.st, g));
      }
    }
  }

  /** The logged generations strictly increase, and a run of g generations
      logs at most g lines. */
  lemma LogIncreasingAndBounded(env: Setting, step: Step, st0: RunState, g: nat)
    requires StepSound(env, step) && Consistent(env, st0) && st0.log == []
    ensures var p := Run(env, step, st0, g);
            StrictlyIncreasing(Gens(p.st.log)) && |p.st.log| <= g
  {
    var p := Run(env, step, st0, g);
    LogFollowsSchedule(env, step, st0, g);
    StopsOnlyOnChecks(env, step, st0, g);
    ScheduleIncreasing(env.verbosity, Reported(p, g));
  }

  /** g·lam, accumulated one generation at a time. */
  function Times(g: nat, lam: nat): (t: nat) {
    if g == 0 then 0 else Times(g - 1, lam) + lam
  }

  lemma {:induction false} TimesIsProduct(g: nat, lam: nat)
    ensures Times(g, lam) == g * lam
  {
    if g > 0 {
      TimesIsProduct(g - 1, lam);
      assert (g - 1) * lam + lam == g * lam;
    }
  }

  lemma {:induction false} EvaluationsAccumulate(env: Setting, step: Step, st0: RunState, g: nat)
    requires StepSound(env, step) && Consistent(env, st0)
    ensures var p := Run(env, step, st0, g);
            && (p.Running? ==> p.st.pop.fevals == st0.pop.fevals + Times(g, env.lam))
            && (p.Stopped? ==> p.st.pop.fevals == st0.pop.fevals + Times(p.at, env.lam))
  {
    if g > 0 {
      EvaluationsAccumulate(env, step, st0, g - 1);
    }
  }

  /** Every sampled generation spends one evaluation per individual. */
  lemma EvaluationsSpent(env: Setting, step: Step, st0: RunState, g: nat)
    requires StepSound(env, step) && Consistent(env, st0)
    ensures var p := Run(env, step, st0, g);
            && (p.Running? ==> p.st.pop.fevals == st0.pop.fevals + g * env.lam)
            && (p.Stopped? ==> p.st.pop.fevals == st0.pop.fevals + p.at * env.lam)
  {
    EvaluationsAccumulate(env, step, st0, g);
    TimesIsProduct(g, env.lam);
    var p := Run(env, step, st0, g);
    if p.Stopped? {
      TimesIsProduct(p.at, env.lam);
    }
  }

  /** Lines whose evaluation count is their generation times lam. */
  predicate CountsEvaluations(log: seq<LogLine>, lam: nat) {
    forall i :: 0 <= i < |log| ==> log[i].fevals == Times(log[i].gen, lam)
  }

  lemma FollowsCountsEvaluations(env: Setting, st: RunState, g: nat, r: Progress)
    requires Follows(env, st, g, r) && g >= 1
    requires st.pop.fevals == env.fevals0 + Times(g - 1, env.lam)
    requires CountsEvaluations(st.log, env.lam)
    ensures CountsEvaluations(r.st.log, env.lam)
  {
    if r.Running? && LogDue(g, env.verbosity) {
      assert forall i :: 0 <= i < |st.log| ==> r.st.log[i] == st.log[i];
    }
  }

  /** Each log line records the evaluations spent up to its generation:
      one per individual per generation. */
  lemma {:induction false} LogCountsEvaluations(env: Setting, step: Step, st0: RunState, g: nat)
    requires StepSound(env, step) && Consistent(env, st0) && st0.log == [] && st0.pop.fevals == env.fevals0
    ensures CountsEvaluations(Run(env, step, st0, g).st.log, env.lam)
  {
    if g > 0 {
      LogCountsEvaluations(env, step, st0, g - 1);
      EvaluationsAccumulate(env, step, st0, g - 1);
      var p := Run(env, step, st0, g - 1);
      if p.Running? {
        FollowsCountsEvaluations(env, p.st, g, step(p.st, g));
      }
    }
  }
}
