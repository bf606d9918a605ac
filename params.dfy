/**
  Configuration of the xNES algorithm: the checks its constructor performs
  on the learning rates and the initial scale, and the learning rates that
  one call of evolve actually uses.
 */
module Params {
  import opened Wrappers
  import opened Numerics

  /** The sentinel meaning "choose this value automatically". */
  const Auto: real := -1.0

  datatype ParamError =
    | EtaMuOutOfRange(etaMu: real)
    | EtaSigmaOutOfRange(etaSigma: real)
    | EtaBOutOfRange(etaB: real)
    | Sigma0OutOfRange(sigma0: real)

  /** The domain the constructor's error messages state: ]0,1] or the sentinel. */
  predicate InRange(x: real) {
    0.0 < x <= 1.0 || x == Auto
  }

  /** The constructor's test for one parameter, as written: it throws when
      the value is outside ]0,1] and is not the sentinel. */
  predicate Accepted(x: real)
    ensures Accepted(x) <==> InRange(x)
  {
    !(((x <= 0.0) || (x > 1.0)) && !(x == Auto))
  }

  /** The four checks of the constructor, in the order it makes them; the
      first failing one decides the error. */
  function CheckParams(etaMu: real, etaSigma: real, etaB: real, sigma0: real): (r: Outcome<ParamError>)
    ensures r.Pass? <==> InRange(etaMu) && InRange(etaSigma) && InRange(etaB) && InRange(sigma0)
    ensures !InRange(etaMu) ==> r == Fail(EtaMuOutOfRange(etaMu))
    ensures InRange(etaMu) && !InRange(etaSigma) ==> r == Fail(EtaSigmaOutOfRange(etaSigma))
    ensures InRange(etaMu) && InRange(etaSigma) && !InRange(etaB) ==> r == Fail(EtaBOutOfRange(etaB))
    ensures InRange(etaMu) && InRange(etaSigma) && InRange(etaB) && !InRange(sigma0)
            ==> r == Fail(Sigma0OutOfRange(sigma0))
  {
    if !Accepted(etaMu) then Fail(EtaMuOutOfRange(etaMu))
    else if !Accepted(etaSigma) then Fail(EtaSigmaOutOfRange(etaSigma))
    else if !Accepted(etaB) then Fail(EtaBOutOfRange(etaB))
    else if !Accepted(sigma0) then Fail(Sigma0OutOfRange(sigma0))
    else Pass
  }

  /** Zero is rejected for every parameter, although the constructor's
      documentation speaks of the closed interval [0, 1]. */
  lemma ZeroRejected(etaMu: real, etaSigma: real, etaB: real, sigma0: real)
    requires etaMu == 0.0 || etaSigma == 0.0 || etaB == 0.0 || sigma0 == 0.0
    ensures CheckParams(etaMu, etaSigma, etaB, sigma0).Fail?
  {
  }

  datatype Rates = Rates(etaMu: real, etaSigma: real, etaB: real)

  /** The default for the step-size and covariance learning rates in dimension n:
      0.6 (3 + ln n) / (n sqrt n). */
  function CommonDefault(k: Kernel, n: nat): (r: real)
    requires SqrtPositive(k.sqrt) && n >= 1
    ensures 0.0 < r <==> -3.0 < k.ln(n as real)
  {
    var N := n as real;
    assert N * k.sqrt(N) > 0.0;
    0.6 * (3.0 + k.ln(N)) / (N * k.sqrt(N))
  }

  /** One learning-rate default as the source writes it: the condition of the
      `if` ASSIGNS the sentinel to the rate and then tests it against zero,
      which always succeeds, so the fallback always replaces the configured value. */
  function DefaultedAsWritten(configured: real, fallback: real): (r: real)
    ensures r == fallback
  {
    var rate := Auto;
    if rate != 0.0 then fallback else rate
  }

  /** The learning rates evolve uses: whatever is configured, eta_mu is 1 and
      eta_sigma and eta_b are the common default. */
  function EffectiveRates(configured: Rates, common: real): (r: Rates)
    ensures r == Rates(1.0, common, common)
  {
    Rates(DefaultedAsWritten(configured.etaMu, 1.0),
          DefaultedAsWritten(configured.etaSigma, common),
          DefaultedAsWritten(configured.etaB, common))
  }

  /** The default as the documentation describes it: only the sentinel is replaced. */
  function DefaultedIntended(configured: real, fallback: real): (r: real)
    ensures configured == Auto ==> r == fallback
    ensures configured != Auto ==> r == configured
  {
    if configured == Auto then fallback else configured
  }

  function IntendedRates(configured: Rates, common: real): (r: Rates)
    ensures configured.etaMu != Auto ==> r.etaMu == configured.etaMu
    ensures configured.etaSigma != Auto ==> r.etaSigma == configured.etaSigma
    ensures configured.etaB != Auto ==> r.etaB == configured.etaB
    ensures r.etaMu == (if configured.etaMu == Auto then 1.0 else configured.etaMu)
    ensures configured.etaSigma == Auto ==> r.etaSigma == common
    ensures configured.etaB == Auto ==> r.etaB == common
  {
    Rates(DefaultedIntended(configured.etaMu, 1.0),
          DefaultedIntended(configured.etaSigma, common),
          DefaultedIntended(configured.etaB, common))
  }

  /** A configured eta_mu of 0.5 is accepted by the constructor, yet evolve
      runs with 1.0, where the documented behaviour keeps 0.5. */
  lemma ConfiguredRateDiscarded(common: real)
    ensures CheckParams(0.5, Auto, Auto, Auto).Pass?
    ensures EffectiveRates(Rates(0.5, Auto, Auto), common).etaMu == 1.0
    ensures IntendedRates(Rates(0.5, Auto, Auto), common).etaMu == 0.5
  {
  }

  /** The two readings agree exactly when every rate is left to the sentinel
      or happens to equal its default. */
  lemma {:induction false} RatesAgreeIff(configured: Rates, common: real)
    ensures EffectiveRates(configured, common) == IntendedRates(configured, common)
            <==> (configured.etaMu == Auto || configured.etaMu == 1.0)
                 && (configured.etaSigma == Auto || configured.etaSigma == common)
                 && (configured.etaB == Auto || configured.etaB == common)
  {
  }
}
