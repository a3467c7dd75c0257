/*
 * The belief model behind the rain explainer: a prior P(rain), a testimony
 * channel with likelihoods P(T|R) and P(T|not R), the evidence P(T) by the law
 * of total probability, and Bayes' rule with a fallback to the prior when the
 * evidence vanishes. A second, optional signal ("saw rain" / "saw no rain")
 * updates the belief once more.
 *
 * Logarithms are not modelled: every function that reports information in bits
 * takes the base-2 logarithm as a parameter, and only the guards around it are
 * proved.
 */
module RainModel {
  import opened Numeric

  /** The evidence threshold below which an observation is treated as impossible (1e-12). */
  const Eps: real := 0.000000000001

  datatype Preset = Preset(key: string, displayLabel: string, prior: real, tGivenR: real, tGivenNotR: real)

  const Canonical: Preset := Preset("canonical", "Casual friend", 0.30, 0.85, 0.10)
  const VeryReliable: Preset := Preset("very_reliable", "Weather expert", 0.30, 0.95, 0.02)
  const Unreliable: Preset := Preset("unreliable", "Friend who jokes", 0.30, 0.60, 0.40)

  /** The presets in the order the explainer lists them. */
  const Presets: seq<Preset> := [Canonical, VeryReliable, Unreliable]

  lemma ConvexBetween(lo: real, hi: real, w: real)
    requires InUnit(w)
    ensures Min(lo, hi) <= hi * w + lo * (1.0 - w) <= Max(lo, hi)
  {
    var d := hi - lo;
    ScaleUnitBounds(d, w);
    calc {
      hi * w + lo * (1.0 - w);
      lo + d * w;
    }
    if d >= 0.0 {
      assert lo <= lo + d * w <= hi;
    } else {
      assert hi <= lo + d * w <= lo;
    }
  }

  /**
   * P(T) = P(T|R) P(R) + P(T|not R) P(not R) over clamped inputs, a
   * probability.
   */
  function Evidence(prior: real, tGivenR: real, tGivenNotR: real): (e: real)
    ensures InUnit(e)
  {
    var pRain := ClampUnit(prior);
    var pTruth := ClampUnit(tGivenR);
    var pFalse := ClampUnit(tGivenNotR);
    ConvexBetween(pFalse, pTruth, pRain);
    pTruth * pRain + pFalse * (1.0 - pRain)
  }

  /** The evidence is a convex combination of the two likelihoods, so it lies between them. */
  lemma EvidenceBetweenLikelihoods(prior: real, tGivenR: real, tGivenNotR: real)
    ensures Min(ClampUnit(tGivenR), ClampUnit(tGivenNotR)) <= Evidence(prior, tGivenR, tGivenNotR)
    ensures Evidence(prior, tGivenR, tGivenNotR) <= Max(ClampUnit(tGivenR), ClampUnit(tGivenNotR))
  {
    ConvexBetween(ClampUnit(tGivenNotR), ClampUnit(tGivenR), ClampUnit(prior));
  }

  lemma NumeratorBelowEvidence(prior: real, tGivenR: real, tGivenNotR: real)
    ensures 0.0 <= ClampUnit(tGivenR) * ClampUnit(prior) <= Evidence(prior, tGivenR, tGivenNotR)
  {
    var pRain := ClampUnit(prior);
    MulNonneg(ClampUnit(tGivenR), pRain);
    MulNonneg(ClampUnit(tGivenNotR), 1.0 - pRain);
  }

  /** Clamping the arguments first does not change the evidence. */
  lemma EvidenceOfClamped(prior: real, tGivenR: real, tGivenNotR: real)
    ensures Evidence(ClampUnit(prior), ClampUnit(tGivenR), tGivenNotR) == Evidence(prior, tGivenR, tGivenNotR)
  {
  }

  lemma QuotientInUnit(a: real, b: real)
    requires 0.0 <= a <= b && b > 0.0
    ensures InUnit(a / b)
  {
  }

  /**
   * Bayes' rule P(R|T) = P(T|R) P(R) / P(T); when P(T) <= 1e-12 the clamped
   * prior is returned unchanged.
   */
  function Posterior(prior: real, tGivenR: real, tGivenNotR: real): (r: real)
    ensures InUnit(r)
    ensures Evidence(prior, tGivenR, tGivenNotR) <= Eps ==> r == ClampUnit(prior)
    ensures Evidence(prior, tGivenR, tGivenNotR) > Eps ==>
      r == ClampUnit(tGivenR) * ClampUnit(prior) / Evidence(prior, tGivenR, tGivenNotR)
  {
    // The source re-clamps before taking the evidence; evidence clamps its
    // arguments itself and clamping is idempotent (EvidenceOfClamped), so
    // the evidence of the raw arguments is the same number.
    var pRain := ClampUnit(prior);
    var pTruth := ClampUnit(tGivenR);
    var pEvent := Evidence(prior, tGivenR, tGivenNotR);
    if pEvent <= Eps then pRain
    else
      NumeratorBelowEvidence(prior, tGivenR, tGivenNotR);
      QuotientInUnit(pTruth * pRain, pEvent);
      (pTruth * pRain) / pEvent
  }

  lemma QuotientTimesDivisor(r: real, a: real, b: real)
    requires b != 0.0 && r == a / b
    ensures r * b == a
  {
  }

  /** Bayes' rule in product form: P(R|T) P(T) = P(T|R) P(R) whenever P(T) > 1e-12. */
  lemma PosteriorTimesEvidence(prior: real, tGivenR: real, tGivenNotR: real)
    ensures Evidence(prior, tGivenR, tGivenNotR) > Eps ==>
      Posterior(prior, tGivenR, tGivenNotR) * Evidence(prior, tGivenR, tGivenNotR)
      == ClampUnit(tGivenR) * ClampUnit(prior)
  {
    if Evidence(prior, tGivenR, tGivenNotR) > Eps {
      QuotientTimesDivisor(Posterior(prior, tGivenR, tGivenNotR), ClampUnit(tGivenR) * ClampUnit(prior),
                           Evidence(prior, tGivenR, tGivenNotR));
    }
  }

  /** A channel that fires equally often whether or not it rains carries no information. */
  lemma NonInformativeChannel(p: real, q: real)
    ensures Posterior(p, q, q) == ClampUnit(p)
  {
    var c := ClampUnit(q);
    var pr := ClampUnit(p);
    assert Evidence(p, q, q) == c * pr + c * (1.0 - pr);
    assert Evidence(p, q, q) == c;
    if c > Eps {
      var r := Posterior(p, q, q);
      assert r * c == c * pr;
      assert (r - pr) * c == 0.0;
    }
  }

  /**
   * The two answers of a binary signal exhaust the possibilities: the chance
   * of "yes" and the chance of "no" add up to 1.
   */
  lemma SignalOutcomesSumToOne(p: real, sGivenR: real, sGivenNotR: real)
    requires InUnit(sGivenR) && InUnit(sGivenNotR)
    ensures Evidence(p, sGivenR, sGivenNotR) + Evidence(p, 1.0 - sGivenR, 1.0 - sGivenNotR) == 1.0
  {
  }

  /**
   * Conservation of expected evidence: averaging the posterior over the two
   * answers of a binary signal, weighted by their chances, gives back the
   * prior (whenever both answers are possible).
   */
  lemma ExpectedPosteriorIsPrior(p: real, sGivenR: real, sGivenNotR: real)
    requires InUnit(sGivenR) && InUnit(sGivenNotR)
    requires Evidence(p, sGivenR, sGivenNotR) > Eps
    requires Evidence(p, 1.0 - sGivenR, 1.0 - sGivenNotR) > Eps
    ensures Posterior(p, sGivenR, sGivenNotR) * Evidence(p, sGivenR, sGivenNotR)
          + Posterior(p, 1.0 - sGivenR, 1.0 - sGivenNotR) * Evidence(p, 1.0 - sGivenR, 1.0 - sGivenNotR)
          == ClampUnit(p)
  {
    var pr := ClampUnit(p);
    assert ClampUnit(1.0 - sGivenR) == 1.0 - sGivenR;
    assert sGivenR * pr + (1.0 - sGivenR) * pr == pr;
  }

  /**
   * The Kullback-Leibler divergence of Bernoulli(p) from Bernoulli(q) in bits.
   * It is exactly 0 when the clamped arguments are within 1e-12 of each other;
   * otherwise both arguments are kept 1e-12 away from 0 and 1 before the
   * logarithms are taken.
   */
  function BernoulliKL(p: real, q: real, log2: real -> real): (r: real)
    ensures Abs(ClampUnit(p) - ClampUnit(q)) <= Eps ==> r == 0.0
  {
    var p1 := ClampUnit(p);
    var q1 := ClampUnit(q);
    if Abs(p1 - q1) <= Eps then 0.0
    else
      var a := Min(1.0 - Eps, Max(Eps, p1));
      var b := Min(1.0 - Eps, Max(Eps, q1));
      a * log2(a / b) + (1.0 - a) * log2((1.0 - a) / (1.0 - b))
  }

  lemma KLOfSelfIsZero(p: real, log2: real -> real)
    ensures BernoulliKL(p, p, log2) == 0.0
  {
  }

  datatype SecondUpdate = SecondUpdate(event: real, numerator: real, posterior: real)

  /**
   * `u` is one Bayes update of `belief` by an observation with likelihoods
   * `lGivenR` and `lGivenNotR`: its event probability is the evidence, its
   * numerator is P(obs|R) P(R), and its posterior satisfies Bayes' rule (or
   * keeps the belief when the evidence vanishes).
   */
  predicate IsBayesUpdate(belief: real, lGivenR: real, lGivenNotR: real, u: SecondUpdate) {
    u.event == Evidence(belief, lGivenR, lGivenNotR) && u.numerator == lGivenR * belief
    && (u.event > Eps ==> u.posterior * u.event == u.numerator)
    && (u.event <= Eps ==> u.posterior == belief)
  }

  /** One application of evidence and posterior to a belief that is already a probability. */
  function BayesUpdate(belief: real, lGivenR: real, lGivenNotR: real): (u: SecondUpdate)
    requires InUnit(belief) && InUnit(lGivenR) && InUnit(lGivenNotR)
    ensures IsBayesUpdate(belief, lGivenR, lGivenNotR, u)
    ensures InUnit(u.event) && InUnit(u.posterior)
  {
    PosteriorTimesEvidence(belief, lGivenR, lGivenNotR);
    SecondUpdate(Evidence(belief, lGivenR, lGivenNotR), lGivenR * belief, Posterior(belief, lGivenR, lGivenNotR))
  }

  /** The raw inputs of the single-testimony view; they may be any JavaScript number. */
  datatype BeliefInput = BeliefInput(prior: Num, tGivenR: Num, tGivenNotR: Num)

  datatype BeliefState = BeliefState(
    prior: real,
    tGivenR: real,
    tGivenNotR: real,
    pTestimony: real,
    posterior: real,
    numerator: real,
    logEvidence: real,
    klUpdateCost: real)

  /** deriveState: everything the single-testimony view displays. */
  function DeriveState(input: BeliefInput, log2: real -> real): (s: BeliefState)
    ensures s.prior == Clamp01(input.prior)
    ensures s.tGivenR == Clamp01(input.tGivenR)
    ensures s.tGivenNotR == Clamp01(input.tGivenNotR)
    ensures IsBayesUpdate(s.prior, s.tGivenR, s.tGivenNotR, SecondUpdate(s.pTestimony, s.numerator, s.posterior))
    ensures InUnit(s.pTestimony) && InUnit(s.posterior)
    ensures s.prior <= Eps || s.posterior <= Eps ==> s.logEvidence == 0.0
    ensures s.posterior == s.prior ==> s.klUpdateCost == 0.0
  {
    var prior := Clamp01(input.prior);
    var tGivenR := Clamp01(input.tGivenR);
    var tGivenNotR := Clamp01(input.tGivenNotR);
    var u := BayesUpdate(prior, tGivenR, tGivenNotR);
    var post := u.posterior;
    BeliefState(
      prior, tGivenR, tGivenNotR,
      u.event,
      post,
      u.numerator,
      if prior <= Eps || post <= Eps then 0.0 else log2(post / prior),
      BernoulliKL(post, prior, log2))
  }

  lemma CanonicalEvidence()
    ensures Evidence(Canonical.prior, Canonical.tGivenR, Canonical.tGivenNotR) == 0.325
  {
  }

  lemma CanonicalBayesUpdate()
    ensures BayesUpdate(Canonical.prior, Canonical.tGivenR, Canonical.tGivenNotR) == SecondUpdate(0.325, 0.255, 0.255 / 0.325)
  {
    CanonicalEvidence();
  }

  /** The canonical preset: P(T) = 0.325, numerator 0.255, posterior 0.255 / 0.325. */
  lemma CanonicalPresetState(log2: real -> real)
    ensures var s := DeriveState(BeliefInput(Finite(Canonical.prior), Finite(Canonical.tGivenR), Finite(Canonical.tGivenNotR)), log2);
      s.pTestimony == 0.325 && s.numerator == 0.255 && s.posterior == 0.255 / 0.325
  {
    CanonicalBayesUpdate();
  }

  datatype Observation = SawRain | SawNoRain | NoObservation

  /** Any value other than "saw_no_rain" or "saw_rain" means no second signal. */
  function NormalizeObservation(raw: string): (o: Observation)
    ensures o == SawNoRain <==> raw == "saw_no_rain"
    ensures o == SawRain <==> raw == "saw_rain"
  {
    if raw == "saw_no_rain" then SawNoRain
    else if raw == "saw_rain" then SawRain
    else NoObservation
  }

  datatype SequentialInput = SequentialInput(
    prior: Num, tGivenR: Num, tGivenNotR: Num,
    sGivenR: Num, sGivenNotR: Num, observation: string)

  datatype SequentialState = SequentialState(
    prior: real,
    tGivenR: real,
    tGivenNotR: real,
    pTestimony: real,
    numerator: real,
    posterior: real,
    posteriorAfterTestimony: real,
    posteriorAfterSecondSignal: real,
    secondSignalGivenR: real,
    secondSignalGivenNotR: real,
    observation: Observation,
    secondSignalLikelihoodGivenR: real,
    secondSignalLikelihoodGivenNotR: real,
    pSecondSignalEvent: real,
    secondSignalNumerator: real,
    testimonyBits: real,
    secondSignalBits: real,
    logEvidence: real,
    klUpdateCost: real)

  /**
   * The second-signal step of deriveSequentialState: with no observation the
   * event has probability 1 and the belief stays; otherwise Bayes' rule is
   * applied once more with the observation's likelihoods.
   */
  function SecondSignalUpdate(belief: real, obs: Observation, lGivenR: real, lGivenNotR: real): (u: SecondUpdate)
    requires InUnit(belief) && InUnit(lGivenR) && InUnit(lGivenNotR)
    ensures obs == NoObservation ==> u == SecondUpdate(1.0, belief, belief)
    ensures obs != NoObservation ==> IsBayesUpdate(belief, lGivenR, lGivenNotR, u)
    ensures InUnit(u.posterior)
  {
    if obs == NoObservation then SecondUpdate(1.0, belief, belief)
    else BayesUpdate(belief, lGivenR, lGivenNotR)
  }

  /**
   * deriveSequentialState: the testimony update followed by an optional second
   * signal. "saw_no_rain" uses the complementary likelihoods 1 - P(S|R) and
   * 1 - P(S|not R); no observation leaves the belief where the testimony put it.
   */
  function DeriveSequentialState(input: SequentialInput, log2: real -> real): (s: SequentialState)
    ensures s.observation == NormalizeObservation(input.observation)
    ensures s.secondSignalGivenR == Clamp01(input.sGivenR) && s.secondSignalGivenNotR == Clamp01(input.sGivenNotR)
    ensures s.observation == SawNoRain ==>
      s.secondSignalLikelihoodGivenR == 1.0 - s.secondSignalGivenR
      && s.secondSignalLikelihoodGivenNotR == 1.0 - s.secondSignalGivenNotR
    ensures s.observation != SawNoRain ==>
      s.secondSignalLikelihoodGivenR == s.secondSignalGivenR
      && s.secondSignalLikelihoodGivenNotR == s.secondSignalGivenNotR
    ensures s.observation == NoObservation ==>
      s.posterior == s.posteriorAfterTestimony && s.pSecondSignalEvent == 1.0
      && s.secondSignalNumerator == s.posteriorAfterTestimony
    ensures s.observation != NoObservation ==>
      IsBayesUpdate(s.posteriorAfterTestimony, s.secondSignalLikelihoodGivenR, s.secondSignalLikelihoodGivenNotR,
                    SecondUpdate(s.pSecondSignalEvent, s.secondSignalNumerator, s.posterior))
    ensures s.posteriorAfterSecondSignal == s.posterior && InUnit(s.posterior)
    ensures s.prior <= Eps || s.posteriorAfterTestimony <= Eps ==> s.testimonyBits == 0.0
    ensures s.posteriorAfterTestimony <= Eps || s.posterior <= Eps ==> s.secondSignalBits == 0.0
    ensures s.logEvidence == s.testimonyBits + s.secondSignalBits
    ensures s.posterior == s.prior ==> s.klUpdateCost == 0.0
  {
    var prior := Clamp01(input.prior);
    var tGivenR := Clamp01(input.tGivenR);
    var tGivenNotR := Clamp01(input.tGivenNotR);
    var sGivenR := Clamp01(input.sGivenR);
    var sGivenNotR := Clamp01(input.sGivenNotR);
    var observation := NormalizeObservation(input.observation);
    var first := BayesUpdate(prior, tGivenR, tGivenNotR);
    var afterTestimony := first.posterior;
    var obsGivenR := if observation == SawNoRain then 1.0 - sGivenR else sGivenR;
    var obsGivenNotR := if observation == SawNoRain then 1.0 - sGivenNotR else sGivenNotR;
    var second := SecondSignalUpdate(afterTestimony, observation, obsGivenR, obsGivenNotR);
    var afterSecond := second.posterior;
    var step1 := if prior > Eps && afterTestimony > Eps then log2(afterTestimony / prior) else 0.0;
    var step2 := if afterTestimony > Eps && afterSecond > Eps then log2(afterSecond / afterTestimony) else 0.0;
    SequentialState(
      prior, tGivenR, tGivenNotR,
      first.event,
      first.numerator,
      afterSecond,
      afterTestimony,
      afterSecond,
      sGivenR, sGivenNotR,
      observation,
      obsGivenR, obsGivenNotR,
      second.event,
      second.numerator,
      step1, step2,
      step1 + step2,
      BernoulliKL(afterSecond, prior, log2))
  }

  /** The first stage of the sequential view is exactly the single-testimony view. */
  lemma SequentialExtendsSingle(input: SequentialInput, log2: real -> real)
    ensures var seqState := DeriveSequentialState(input, log2);
      var single := DeriveState(BeliefInput(input.prior, input.tGivenR, input.tGivenNotR), log2);
      seqState.pTestimony == single.pTestimony
      && seqState.numerator == single.numerator
      && seqState.posteriorAfterTestimony == single.posterior
      && seqState.testimonyBits == single.logEvidence
  {
  }
}
