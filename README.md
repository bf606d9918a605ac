# xNES (exponential natural evolution strategies) in Dafny

This project models pagmo's `xnes` algorithm (`include/pagmo/algorithms/xnes.hpp`) and proves properties of the model.
xNES keeps a search distribution over the box-bounded decision space. The distribution has a mean, a square transform `A` and a step size `sigma`.
A call to `evolve` runs up to `gen` generations. Each generation does the following:

- draws `lam` noise vectors `z_i` and turns each into a candidate `mean + A z_i`;
- repairs every out-of-box coordinate with a uniform draw inside the bounds, then evaluates the candidates;
- on every tenth generation, stops when `|A z_0|` is below `xtol` or when the best-worst fitness spread is below `ftol`;
- appends a log line when the verbosity schedule says so;
- ranks the individuals by fitness and moves the distribution along the natural gradient, which is weighted by fixed utilities.

The distribution is the algorithm's "memory". It is either reset at the start of each call or kept, depending on the `memory` flag and on whether the problem's dimension changed. The model also resets it on the first call; see "## Findings".

How the pieces are modelled:

- **The algorithm object.** `Algorithm.Xnes` is a class. Its constructor checks the parameters. `SetSeed` and `SetVerbosity` update the object. `Evolve` rewrites the distribution fields and the log in place.
- **The generation loop.** `Algorithm.Xnes.RunGenerations` runs the loop imperatively. It is proved equal to a functional run `GenerationLoop.Run`, which applies `GenerationLoop.Generation` once per generation.
- **Properties of a run.** They are proved once for any step that keeps the per-generation promises (`GenerationLoop.Follows`), and the xNES generation is such a step. This covers the box, the evaluation count, where a run stops, and the log schedule.
- **Numerics.** The floating-point library calls `log`, `exp`, `sqrt`, the Euclidean norm and the matrix exponential are parameters: a `Numerics.Kernel`. Only the properties the proofs need are assumed of them, as predicates: `ln` is increasing, `sqrt` is positive, and `expm` keeps the shape of a square matrix. Arithmetic is on `real`.
- **Randomness.** The random engine is two streams of draws: `normals` (standard normal) and `uniforms` (in `[0,1)`). Each stream is read in the order the source draws from it. The interleaving of the two in the source's single engine `m_e` is not kept: normals (line 295), repair uniforms (line 303) and the stochastic reseed (line 289) all come from that engine. The dependence of everything on one seed is not kept either. `Sampling.BlockStart` and the positions carried in `GenerationLoop.RunState` record how far each stream has been read.
- **The problem.** The problem is a value `Population.Problem` with dimension, bounds, objective and constraint counts, and a fitness oracle.

## Model

| member | source | states |
|---|---|---|
| Params.Accepted | include/pagmo/algorithms/xnes.hpp:140-161 | a learning rate or sigma0 is accepted exactly when it is -1 or lies in ]0,1] |
| Params.CheckParams | include/pagmo/algorithms/xnes.hpp:140-161 | the parameters pass exactly when all four are in range; otherwise the first failing one, in the order eta_mu, eta_sigma, eta_b, sigma0, is the reported error |
| Params.ZeroRejected | include/pagmo/algorithms/xnes.hpp:133-161 | a zero rate or sigma0 is rejected, although the doc comment advertises [0,1] |
| Algorithm.Xnes.constructor | include/pagmo/algorithms/xnes.hpp:135-166 | valid parameters are stored; verbosity starts at 0, the log starts empty, and the memory is mean [0], A = [[1]], sigma = sigma0, not yet initialised from a problem |
| Distribution.Constructed | include/pagmo/algorithms/xnes.hpp:163-165 | the constructed memory is one-dimensional: mean 0, identity transform, sigma equal to sigma0 |
| Algorithm.Xnes.Create | include/pagmo/algorithms/xnes.hpp:135-161 | construction fails exactly when the parameter check fails, with the same error; otherwise it yields a fresh valid object that stores every parameter, the tolerances included, with verbosity 0, an empty log and the constructed memory |
| Algorithm.Preamble | include/pagmo/algorithms/xnes.hpp:196-207 | evolve proceeds exactly when there are no constraints, one objective and lam >= 4; otherwise the error names the first failing check |
| Algorithm.FourIndividualsAccepted | include/pagmo/algorithms/xnes.hpp:204-207 | on an unconstrained single-objective problem, 4 individuals are accepted and 3 are rejected |
| Algorithm.PreambleIntended | include/pagmo/algorithms/xnes.hpp:178 | the documented check: evolve proceeds exactly when there are no constraints, one objective and at least 5 individuals |
| Algorithm.PreamblesDifferOnlyAtFour | include/pagmo/algorithms/xnes.hpp:178-207 | the coded and the documented checks disagree exactly for an unconstrained single-objective problem with 4 individuals |
| Params.DefaultedAsWritten | include/pagmo/algorithms/xnes.hpp:225-235 | a rate whose condition is an assignment of -1 always takes the fallback value, whatever was configured |
| Params.EffectiveRates | include/pagmo/algorithms/xnes.hpp:224-235 | the rates evolve uses are eta_mu = 1 and eta_sigma = eta_b = the common default, whatever was configured |
| Params.DefaultedIntended | include/pagmo/algorithms/xnes.hpp:224-235 | -1 takes the fallback and any other configured value is kept |
| Params.CommonDefault | include/pagmo/algorithms/xnes.hpp:229 | the common default rate 0.6 (3 + ln n) / (n sqrt n) is positive exactly when ln n > -3 |
| Params.IntendedRates | include/pagmo/algorithms/xnes.hpp:224-235 | each configured rate is kept; eta_mu falls back to 1 and the others to the common default only when they are -1 |
| Params.ConfiguredRateDiscarded | include/pagmo/algorithms/xnes.hpp:224-227 | eta_mu = 0.5 passes the constructor, but evolve uses 1 where 0.5 was intended |
| Params.RatesAgreeIff | include/pagmo/algorithms/xnes.hpp:224-235 | the coded rates equal the intended ones exactly when eta_mu is -1 or 1 and each other rate is -1 or equal to the common default |
| Weights.RawWeights | include/pagmo/algorithms/xnes.hpp:237-240 | there are lam raw weights and weight i is max(0, ln(lam/2+1) - ln(i+1)) |
| Weights.RawWeightNonIncreasing | include/pagmo/algorithms/xnes.hpp:239 | raw weights do not increase with rank |
| Weights.RawSumPositive | include/pagmo/algorithms/xnes.hpp:241-244 | the sum that normalises the utilities is positive, so the division is defined |
| Weights.Utility | include/pagmo/algorithms/xnes.hpp:237-247 | a utility is never below -1/lam, the shift applied to a zero raw weight |
| Weights.Utilities | include/pagmo/algorithms/xnes.hpp:237-247 | there are lam utilities and utility i is raw_i / sum - 1/lam |
| Weights.UtilitiesNormalised | include/pagmo/algorithms/xnes.hpp:241-247 | the normalising sum is positive and each utility is the raw weight over the sum minus 1/lam |
| Weights.UtilitiesSumToZero | include/pagmo/algorithms/xnes.hpp:237-247 | the utilities sum to zero |
| Weights.UtilityNonIncreasing | include/pagmo/algorithms/xnes.hpp:237-247 | better ranks never get smaller utilities |
| Weights.ComputeUtilities | include/pagmo/algorithms/xnes.hpp:237-247 | the three loops produce the utilities, and their sum is zero |
| Distribution.InitialSigma | include/pagmo/algorithms/xnes.hpp:251-255 | a reset sigma is 1 when sigma0 is -1 and sigma0 otherwise, so it always lies in ]0,1] for an accepted sigma0 |
| Distribution.Width | include/pagmo/algorithms/xnes.hpp:260 | a search width is never below 1e-6 |
| Distribution.InitialA | include/pagmo/algorithms/xnes.hpp:256-261 | the reset transform is diagonal, with entry j equal to max(ub_j - lb_j, 1e-6) times sigma |
| Algorithm.InitialTransform | include/pagmo/algorithms/xnes.hpp:256-261 | the identity-then-diagonal loop builds exactly the reset transform |
| Distribution.Initial | include/pagmo/algorithms/xnes.hpp:250-266 | a reset distribution has the problem's dimension |
| Distribution.InitialSpreadPositive | include/pagmo/algorithms/xnes.hpp:250-266 | after a reset, the mean is the best individual, sigma is in ]0,1] and the diagonal of A is positive |
| Distribution.NeedsReset | include/pagmo/algorithms/xnes.hpp:250 | the memory is kept exactly when memory is on and the stored mean has the problem's dimension |
| Distribution.StartOfCall | include/pagmo/algorithms/xnes.hpp:248-266 | the memory is reset exactly when the dimension changed or memory is off, and is kept otherwise |
| Algorithm.Xnes.ResetOrRetain | include/pagmo/algorithms/xnes.hpp:248-266 | the object's distribution fields become the start-of-call memory under the intended reset condition, and the memory is marked initialised; seed, verbosity and log are unchanged |
| Distribution.OneDimensionalFirstCallSkipsReset | include/pagmo/algorithms/xnes.hpp:163-165 | with memory on, the first call on a 1-D problem keeps the constructor's memory, which has sigma = -1 when sigma0 was -1 |
| Distribution.StartOfCallIntended | include/pagmo/algorithms/xnes.hpp:248-250 | the memory is reset when it was never initialised, when the dimension changed or when memory is off |
| Distribution.IntendedFirstCallResets | include/pagmo/algorithms/xnes.hpp:248-266 | with the intended check, the first call always starts from the best individual with a positive sigma, and later calls with memory on keep the memory |
| Sampling.Rescale | include/pagmo/algorithms/xnes.hpp:303 | a uniform draw in [0,1) rescaled to [lb, ub] stays in [lb, ub] |
| Sampling.Candidate | include/pagmo/algorithms/xnes.hpp:298 | a candidate mean + A z has the mean's dimension |
| Sampling.CandidateAt | include/pagmo/algorithms/xnes.hpp:298 | coordinate j of the candidate is mean_j plus row j of A times z |
| Sampling.Repaired | include/pagmo/algorithms/xnes.hpp:301-306 | the repaired vector has the candidate's dimension; it is the reference the repair loop is proved equal to |
| Sampling.RepairDraws | include/pagmo/algorithms/xnes.hpp:301-306 | an out-of-box coordinate takes the next unused uniform draw, rescaled to [lb_j, ub_j], and moves the uniform stream on by one |
| Sampling.RepairedInBox | include/pagmo/algorithms/xnes.hpp:301-306 | after the repair, every coordinate lies in the box and every coordinate that was already inside is unchanged |
| Sampling.Repair | include/pagmo/algorithms/xnes.hpp:301-306 | the repair loop yields the repaired vector and uses one uniform draw per out-of-box coordinate |
| Sampling.NoiseBlock | include/pagmo/algorithms/xnes.hpp:292-296 | a generation draws lam noise vectors of dimension n |
| Sampling.NoiseBlockAt | include/pagmo/algorithms/xnes.hpp:292-296 | noise vector i is the i-th run of n consecutive normal draws |
| Sampling.BlockStartOffset | include/pagmo/algorithms/xnes.hpp:292-296 | after i noise vectors the normal stream has advanced by i*n |
| Population.SetX | include/pagmo/algorithms/xnes.hpp:307-310 | writing individual i sets its decision vector to x and its fitness to the fitness of x, and adds one evaluation |
| Population.SetXKeepsOthers | include/pagmo/algorithms/xnes.hpp:310 | writing individual i leaves every other individual and its fitness unchanged, so an evaluated population stays evaluated |
| Sampling.SampledUpTo | include/pagmo/algorithms/xnes.hpp:292-311 | sampling the first i individuals keeps the population size and its fit to the problem; it is the reference the sampling loop is proved equal to |
| Sampling.SampledUpToCounts | include/pagmo/algorithms/xnes.hpp:292-311 | after i individuals, i evaluations are counted, the uniform stream has not gone back, individuals from i on are untouched and those before i are evaluated |
| Sampling.SampledUpToWritten | include/pagmo/algorithms/xnes.hpp:292-311 | after i individuals, each individual before i holds its repaired candidate |
| Sampling.SampledUpToShape | include/pagmo/algorithms/xnes.hpp:292-311 | after i individuals: i evaluations are counted; individuals from i on are untouched; those before i hold the repaired candidates and their fitness |
| Sampling.SampledGeneration | include/pagmo/algorithms/xnes.hpp:292-311 | a generation adds lam evaluations; it leaves every individual inside the box and evaluated; each in-box coordinate of mean + A z_i is kept as is |
| Sampling.SampleOne | include/pagmo/algorithms/xnes.hpp:293-310 | one pass of the loop draws noise vector i and writes and evaluates individual i |
| Sampling.SampleGeneration | include/pagmo/algorithms/xnes.hpp:292-311 | the sampling loop returns the generation's noise block and advances the normal stream by lam*n; it yields the sampled population |
| GenerationLoop.BoxSampler | include/pagmo/algorithms/xnes.hpp:292-311 | xNES sampling keeps the population size, adds one evaluation per individual, and leaves the population evaluated and inside the box |
| Population.BestIdx | include/pagmo/algorithms/xnes.hpp:323 | the best index names a smallest fitness |
| Population.WorstIdx | include/pagmo/algorithms/xnes.hpp:324 | the worst index names a largest fitness |
| GenerationLoop.Spread | include/pagmo/algorithms/xnes.hpp:323-325 | the best-worst spread df is never negative |
| GenerationLoop.SpreadBounds | include/pagmo/algorithms/xnes.hpp:323-325 | the spread bounds the difference of any two fitness values |
| Logging.RemIsMod | include/pagmo/algorithms/xnes.hpp:314 | the model's remainder equals gen % 10 |
| Logging.CheckDue | include/pagmo/algorithms/xnes.hpp:314 | the exit conditions are checked exactly when gen % 10 == 0 |
| GenerationLoop.StepLength | include/pagmo/algorithms/xnes.hpp:316-338 | dx = norm(A z_0) is never negative, for a norm that is never negative |
| GenerationLoop.Stops | include/pagmo/algorithms/xnes.hpp:314-332 | a generation can stop the call only when gen is a multiple of 10 |
| Algorithm.TestStop | include/pagmo/algorithms/xnes.hpp:314-332 | the exit test is true exactly on a tenth generation whose step length is below xtol or whose spread is below ftol |
| GenerationLoop.Logged | include/pagmo/algorithms/xnes.hpp:334-354 | when generation g is due, one line (g, fevals spent, best fitness, dx, df, sigma) is appended; otherwise the log is unchanged |
| Algorithm.LogIfDue | include/pagmo/algorithms/xnes.hpp:334-354 | the logging branch yields exactly that log |
| Logging.LogDue | include/pagmo/algorithms/xnes.hpp:334-336 | generation g is logged exactly when verbosity v > 0 and (g % v == 1 or v == 1) |
| Logging.Schedule | include/pagmo/algorithms/xnes.hpp:334-336 | a generation g in 1..n is in the schedule exactly when verbosity > 0 and (g % v == 1 or v == 1) |
| Logging.ScheduleIncreasing | include/pagmo/algorithms/xnes.hpp:334-336 | the logged generations strictly increase |
| Logging.ScheduleEvery | include/pagmo/algorithms/xnes.hpp:336 | verbosity 1 logs every generation |
| Logging.ScheduleNone | include/pagmo/algorithms/xnes.hpp:334 | verbosity 0 logs nothing |
| Logging.ScheduleStep | include/pagmo/algorithms/xnes.hpp:334-354 | generation n adds itself to the schedule exactly when it is due |
| Ranking.Iota | include/pagmo/algorithms/xnes.hpp:357-358 | the initial index sequence is 0..lam-1 |
| Ranking.Rank | include/pagmo/algorithms/xnes.hpp:357-361 | the ranking holds lam indices below lam |
| Ranking.RankSorted | include/pagmo/algorithms/xnes.hpp:359-361 | the ranked indices have non-decreasing fitness, best first |
| Ranking.RankPermutation | include/pagmo/algorithms/xnes.hpp:357-361 | the ranking is a permutation of 0..lam-1 |
| Ranking.RankTiesByIndex | include/pagmo/algorithms/xnes.hpp:359-361 | individuals of equal fitness are ranked in index order |
| Ranking.SortByFitness | include/pagmo/algorithms/xnes.hpp:357-361 | the sorting loop yields the ranking |
| Ranking.FindSlot | include/pagmo/algorithms/xnes.hpp:359-361 | the scan finds the slot after every entry no worse than the new index |
| NaturalGradient.WeightedNoise | include/pagmo/algorithms/xnes.hpp:364-367 | d_center is an n-vector, the utility-weighted sum of the ranked noise vectors |
| NaturalGradient.CovSum | include/pagmo/algorithms/xnes.hpp:368-371 | cov_grad is an n by n matrix, the utility-weighted sum of z zᵗ - I over the ranked noise |
| NaturalGradient.CovSumTrace | include/pagmo/algorithms/xnes.hpp:368-372 | the trace of cov_grad is the sum over ranks of u_i (abs(z_i)² - n) |
| NaturalGradient.TraceTermsSplit | include/pagmo/algorithms/xnes.hpp:368-372 | that sum is the weighted squared norms minus n times the sum of utilities |
| NaturalGradient.CovTraceOfZeroSumUtilities | include/pagmo/algorithms/xnes.hpp:237-247 | with utilities summing to zero, the trace of cov_grad is the utility-weighted sum of squared noise norms |
| NaturalGradient.RemoveTrace | include/pagmo/algorithms/xnes.hpp:372-373 | subtracting trace/n times I changes only the diagonal, each diagonal entry by -trace/n |
| NaturalGradient.TraceRemoved | include/pagmo/algorithms/xnes.hpp:372-373 | subtracting trace/n times I leaves a traceless matrix |
| NaturalGradient.Gradients | include/pagmo/algorithms/xnes.hpp:363-373 | the accumulation loops yield d_center, cov_trace and the traceless cov_grad |
| NaturalGradient.DeltaA | include/pagmo/algorithms/xnes.hpp:374 | d_A is square with trace (eta_sigma cov_trace + eta_b trace(cov_grad)) / 2 |
| NaturalGradient.Update | include/pagmo/algorithms/xnes.hpp:375-377 | mean += eta_mu A d_center, A becomes A expm(d_A), and sigma is multiplied by exp(trace(d_A)/n), which equals exp(eta_sigma cov_trace / (2n)) for a traceless cov_grad |
| NaturalGradient.Advance | include/pagmo/algorithms/xnes.hpp:363-377 | the natural-gradient step keeps the distribution's shape |
| GenerationLoop.NaturalGradientMover | include/pagmo/algorithms/xnes.hpp:356-377 | the distribution update keeps the distribution's shape |
| Algorithm.Move | include/pagmo/algorithms/xnes.hpp:356-377 | sorting, accumulating and updating yield the moved distribution |
| GenerationLoop.NextPopulation | include/pagmo/algorithms/xnes.hpp:292-311 | a generation's population has lam individuals, lam more evaluations, and every individual evaluated and inside the box |
| GenerationLoop.Moved | include/pagmo/algorithms/xnes.hpp:356-377 | the moved distribution keeps the problem's dimension |
| GenerationLoop.Generation | include/pagmo/algorithms/xnes.hpp:285-377 | one generation keeps the population in the box and spends lam evaluations; a stop happens only on a tenth generation and leaves distribution and log alone; otherwise, when the generation is due, one line for generation g with its evaluation count is appended, and the log is unchanged when it is not due (the line's other fields are stated by GenerationLoop.Logged) |
| Algorithm.Generate | include/pagmo/algorithms/xnes.hpp:285-377 | one pass of the generation loop's body computes exactly that generation |
| GenerationLoop.GenerationStep | include/pagmo/algorithms/xnes.hpp:284-378 | the xNES generation keeps the per-generation promises |
| GenerationLoop.Run | include/pagmo/algorithms/xnes.hpp:284-378 | a run stays consistent with the call's setting |
| GenerationLoop.RunStaysInBox | include/pagmo/algorithms/xnes.hpp:292-311 | after at least one generation every individual is evaluated and inside the box |
| GenerationLoop.StoppedStays | include/pagmo/algorithms/xnes.hpp:320-330 | once a run has stopped, later generations change nothing |
| GenerationLoop.StopsOnlyOnChecks | include/pagmo/algorithms/xnes.hpp:314-332 | a run stops, if at all, on a generation in 1..g that is a multiple of 10 |
| GenerationLoop.FollowsLogGens | include/pagmo/algorithms/xnes.hpp:334-354 | a generation adds its own number to the logged generations exactly when it runs on and is due |
| GenerationLoop.ScheduleAdvances | include/pagmo/algorithms/xnes.hpp:334-354 | a log that matches the schedule up to g-1 matches it up to the last generation reported |
| GenerationLoop.LogFollowsSchedule | include/pagmo/algorithms/xnes.hpp:334-354 | starting from the cleared log, the logged generations are exactly the due generations up to the last one reported |
| GenerationLoop.LogIncreasingAndBounded | include/pagmo/algorithms/xnes.hpp:334-354 | the logged generations strictly increase and there are at most g of them |
| GenerationLoop.EvaluationsAccumulate | include/pagmo/algorithms/xnes.hpp:292-311 | after g generations, or at the stop, the evaluations have grown by lam per generation run |
| GenerationLoop.EvaluationsSpent | include/pagmo/algorithms/xnes.hpp:284-378 | a run spends g * lam evaluations, or at * lam when it stopped at generation at |
| GenerationLoop.FollowsCountsEvaluations | include/pagmo/algorithms/xnes.hpp:348-352 | a generation keeps every log line's evaluation count equal to gen * lam |
| GenerationLoop.LogCountsEvaluations | include/pagmo/algorithms/xnes.hpp:348-352 | every log line records gen * lam evaluations since the call began |
| Algorithm.CallSetting | include/pagmo/algorithms/xnes.hpp:180-267 | the fixed part of an evolve call satisfies what the generation loop needs |
| Algorithm.CallSample | include/pagmo/algorithms/xnes.hpp:292-311 | the call's sampler draws and repairs as the sampling loop does |
| Algorithm.CallAdvance | include/pagmo/algorithms/xnes.hpp:363-377 | the call's distribution update is the natural-gradient step with the call's utilities and rates |
| Algorithm.Xnes.RunGenerations | include/pagmo/algorithms/xnes.hpp:284-382 | the loop leaves the population, the distribution fields and the log exactly as the functional run of gen generations does, stopping where it stops |
| Algorithm.Xnes.Evolve | include/pagmo/algorithms/xnes.hpp:180-383 | fails exactly when the documented preamble fails, changing nothing; for gen = 0 it returns the population and keeps the memory and the stale log; otherwise it clears the log, takes the configured rates, resets or keeps the memory, and ends where the run of gen generations ends |
| Algorithm.Xnes.SetSeed | include/pagmo/algorithms/xnes.hpp:388-392 | the seed is recorded and nothing else changes |
| Algorithm.Xnes.SetVerbosity | include/pagmo/algorithms/xnes.hpp:428-431 | the verbosity is set and nothing else changes |

## Left out

- Floating point: every quantity is a `real`. `log`, `exp`, `sqrt`, the norm and the matrix exponential are uninterpreted kernel functions. Only monotonicity of `ln`, positivity of `sqrt` and shape preservation of `expm` are assumed.
- The random engine and its seeding are not modelled. Draws come from the `normals` and `uniforms` streams that `Evolve` receives. `Algorithm.Xnes.SetSeed` only records the seed, and nothing connects the seed to the streams.
- The reseeding of a stochastic problem at the start of each generation (lines 286-290) is left out, because it draws from the engine for the problem's own use. The problem's fitness is a fixed oracle.
- Screen output (lines 275-279, 317-319, 327-329, 344-350, 379-381) and the header counter `count` are left out. Only the log lines are modelled.
- `get_seed`, `get_verbosity`, `get_gen` and `get_log` (lines 397-447, 500-503) are direct reads of the class's fields `seed`, `verbosity`, `gen` and `log`. `get_name`, `get_extra_info` (strings for display) and `serialize` (an archive) are left out.
- `Algorithm.Xnes.Evolve`: `gen`, `verbosity` and `seed` are `nat`. The model does not wrap them at 2^32 like the source's `unsigned int`.
- `Algorithm.Xnes.Evolve`: the evaluation count comes from the population's record. The source reads it from the problem inside the population, which is the same counter.
- `Ranking.SortByFitness`: the ranking is the stable one (`Ranking.RankTiesByIndex`). `std::sort` with a strict `<` may order individuals of equal fitness either way, so that tie order is one of the rankings the source may produce.
- `Population.BestIdx`, `Population.WorstIdx`: among equal fitness values the first index is chosen. pagmo's `best_idx` and `worst_idx` are not part of this model, so their tie rule is not known here. The tie rule decides which individual becomes the reset mean (lines 263-265).
- `Algorithm.Xnes.ResetOrRetain`: it also resets the memory on the first call, through the field `initialised`. Line 250 does not; see "## Findings".
- `Algorithm.Xnes.Evolve`: it requires a well-formed problem (`Population.WellFormed`: at least one variable and lb <= ub in every coordinate). The source does not check this; it relies on pagmo's problem class, which is not part of this model.
- `Algorithm.Xnes.constructor`: the default arguments of lines 135-136 are dropped, so every parameter must be given. In particular, the random default seed has no counterpart.
- The `changed` flag in the repair loop (lines 300-305) is never read, so it is not modelled.
- The doc comment promises an exception for an unbounded problem (line 177). The code has no such check, so the model has none either.
- `Algorithm.Xnes.Evolve` uses the corrected definitions of "## Findings": it keeps configured learning rates, resets the memory on the first call, and asks for at least 5 individuals. The code as written is modelled by the as-written members listed there, and a lemma states each point where the two differ. The field `initialised`, which the corrected reset needs, has no counterpart in the source.

## Findings

| source | as written | input that shows it | evidently intended | confidence | as-written member | corrected member |
|---|---|---|---|---|---|---|
| include/pagmo/algorithms/xnes.hpp:225-235 | `if (eta_mu = -1)` assigns -1, which is true, so every configured learning rate is overwritten by its default | eta_mu = 0.5 passes the constructor, but evolve uses eta_mu = 1 | compare with `==` and keep every configured rate that is not -1 | high, not executed | Params.EffectiveRates, Params.ConfiguredRateDiscarded | Params.IntendedRates, Params.RatesAgreeIff |
| include/pagmo/algorithms/xnes.hpp:163-165, 250 | the constructor sets a 1-element mean, so on a 1-D problem with memory on the first evolve never resets the distribution | memory = true, sigma0 = -1, a 1-D problem: the first generation samples around mean 0 with A = [[1]] and sigma = -1 instead of around the best individual | reset the memory on the first call as well | medium, not executed | Distribution.StartOfCall, Distribution.OneDimensionalFirstCallSkipsReset | Distribution.StartOfCallIntended, Distribution.IntendedFirstCallResets |
| include/pagmo/algorithms/xnes.hpp:178, 204-207 | the check rejects only lam < 4, while the documentation and the error message demand at least 5 individuals | a population of 4 individuals is accepted | reject lam < 5 | medium, not executed | Algorithm.Preamble, Algorithm.FourIndividualsAccepted | Algorithm.PreambleIntended, Algorithm.PreamblesDifferOnlyAtFour |
