# Rain explainer core, modelled in Dafny

This project models the computational core of an interactive explainer of
Bayesian updating. A friend says "it is raining"; the page shows how much that
testimony, and optionally a second signal, should move the reader's belief that
it rains. The same Bayes rule shows up in several places:

- the probability model, with its evidence, posterior, zero-evidence fallback,
  two-step sequential update and canonical presets (`RainModel`);
- the conditional-probability panel, which reads the posterior off interval
  geometry. It also animates falling drops through the intervals and walks a
  staged universe → subset → renormalized perspective change
  (`ConditionalGeometry`, `ConditionalDrops`, `ConditionalPanel`);
- the explainer engine, with its replay scheduler (run tokens, a queue of
  pending callbacks, a looping four-step cycle), step navigation, progressive
  unlocking, the `aria-describedby` token edit, the decision threshold from
  costs, the hash-state merge and its numeric helpers (`Engine`,
  `EngineRules`);
- the natural-frequency bars, which count 1000 imagined days
  (`FrequencyBars`);
- the prior-slider widget (`PriorSlider`);
- the prototype Bayes panel, with its Beta curve, trapezoid CDF, quantiles,
  equal-tailed and highest-density intervals and particle sampling
  (`BayesPanel`);
- the hero rain preview: pulses, smoothing, spawning, survivors and its frame
  timer (`RainPreview`);
- the number-elimination game: a universe 1..N, yes/no constraints from a
  question bank, apply/undo and metrics (`EpZero`).

Probabilities are `real`s, so the arithmetic is exact. A JavaScript number
that may be NaN or infinite is the `Numeric.Num` datatype. Logarithms, powers,
densities, easing curves, `Math.random` and the clock are not computed: they
enter as parameters (functions or drawn values), and the properties hold for
every choice of them. State that the source keeps in closures or objects and
updates in place is a class, usually holding one state record. Each
operation's new state is a pure transition function of the old one, and the
invariants are proved about those functions. Loops in the source are loops
here, proved against a recursive specification function.

## Model

| member | source | states |
|---|---|---|
| Numeric.ClampUnit | public/js/rain/rain_model.js:34-46 | clamp01 on a finite number lands in [0, 1], is the identity inside it, and sends values below 0 to 0 and above 1 to 1 |
| Numeric.Clamp01 | public/js/rain/rain_model.js:34-46 | clamp01 on any number lands in [0, 1]; NaN and the infinities become 0, and a finite value already in [0, 1] is kept |
| Numeric.OrDefault | public/js/rain/rain_frequency_bars.js:246 | `n \|\| fallback` keeps a truthy number and replaces 0 or NaN by the fallback |
| Numeric.Round | public/js/rain/rain_frequency_bars.js:45-52 | Math.round gives the integer within half a unit, halves rounding up |
| Numeric.ClampRange | public/js/rain/rain_preview_d3.js:25-33 | clampRange lands in [min, max], keeps a value already inside, gives min for a value below and max for one above |
| Numeric.Lerp | references/prototypes/rain_bayes_panel_d3.js:40-42 | lerp with a clamped t always lies between its two ends, and gives the first end for t ≤ 0 and the second for t ≥ 1 |
| Numeric.SearchCdf | references/prototypes/rain_bayes_panel_d3.js:117-129 | the lo/hi binary search ends on a valid index that, for a nondecreasing CDF, is the lower bound of the target: every earlier entry is below it, and the index reaches it or is the last |
| Numeric.LowerBoundUnique | references/prototypes/rain_bayes_panel_d3.js:117-129 | the lower bound the search finds is unique |
| Numeric.LowerBoundMonotone | references/prototypes/rain_bayes_panel_d3.js:117-129 | a larger target never gives an earlier lower bound |
| Numeric.FirstReaching | references/prototypes/rain_bayes_panel_d3.js:117-129 | the reference scan for the search: the first index from a start whose entry reaches the target, else the last index |
| Numeric.LowerBoundIsFirstReaching | references/prototypes/rain_bayes_panel_d3.js:117-129 | any lower bound equals the left-to-right scan's answer, so the binary search agrees with a linear search |
| Numeric.CdfPoint | references/prototypes/rain_bayes_panel_d3.js:196-219 | the inverse-CDF sample after the search is always in [0, 1], and is 0 when the first entry already reaches the target |
| Numeric.CdfPointInBin | references/prototypes/rain_bayes_panel_d3.js:196-219 | when the target falls inside bin lo−1..lo, the sample lies in that bin's slice of the unit interval |
| RainModel.ConvexBetween | public/js/rain/rain_model.js:48-54 | a convex combination of two values lies between them |
| RainModel.Evidence | public/js/rain/rain_model.js:48-54 | the evidence P(T) is a probability |
| RainModel.EvidenceBetweenLikelihoods | public/js/rain/rain_model.js:48-54 | the evidence lies between the two clamped likelihoods (law of total probability) |
| RainModel.NumeratorBelowEvidence | public/js/rain/rain_model.js:48-65 | P(T\|R)·P(R) lies in [0, P(T)], so the posterior quotient is a probability |
| RainModel.EvidenceOfClamped | public/js/rain/rain_model.js:56-60 | posterior's call of evidence on already-clamped arguments gives the same evidence as the raw ones |
| RainModel.Posterior | public/js/rain/rain_model.js:56-69 | the posterior (also applyObservation) is in [0, 1]; it is the clamped prior when the evidence is at most 1e-12, and P(T\|R)·P(R)/P(T) otherwise |
| RainModel.PosteriorTimesEvidence | public/js/rain/rain_model.js:56-65 | above the threshold, posterior × evidence equals the numerator (Bayes' rule in product form) |
| RainModel.NonInformativeChannel | public/js/rain/rain_model.js:56-65 | equal likelihoods leave belief unchanged: posterior(p, q, q) is the clamped p, through either branch |
| RainModel.SignalOutcomesSumToOne | public/js/rain/rain_model.js:48-54 | a signal and its complement have evidence summing to 1 |
| RainModel.ExpectedPosteriorIsPrior | public/js/rain/rain_model.js:48-65 | averaging the posteriors after a signal and after its complement, weighted by their evidence, gives back the prior |
| RainModel.BernoulliKL | public/js/rain/rain_model.js:75-87 | the divergence is exactly 0 when the clamped arguments are within 1e-12 |
| RainModel.KLOfSelfIsZero | public/js/rain/rain_model.js:75-87 | the divergence of a belief from itself is 0 |
| RainModel.BayesUpdate | public/js/rain/rain_model.js:48-69 | one update of a probability: event = evidence, numerator = likelihood × belief, posterior × event = numerator above the threshold and the belief below it; both results are probabilities |
| RainModel.DeriveState | public/js/rain/rain_model.js:89-115 | deriveState clamps its three inputs; pTestimony and numerator are the evidence and the numerator of a Bayes update whose posterior it reports; logEvidence is 0 when the prior or the posterior is at most 1e-12; klUpdateCost is 0 when the posterior equals the prior |
| RainModel.CanonicalEvidence | public/js/rain/rain_model.js:10-16 | the canonical preset (0.30, 0.85, 0.10) has evidence 0.325 |
| RainModel.CanonicalBayesUpdate | public/js/rain/rain_model.js:10-16 | the canonical update is event 0.325, numerator 0.255, posterior 0.255/0.325 |
| RainModel.CanonicalPresetState | public/js/rain/rain_model.js:10-16 | deriveState on the canonical preset gives pTestimony 0.325, numerator 0.255 and posterior 0.255/0.325 |
| RainModel.NormalizeObservation | public/js/rain/rain_model.js:123 | the observation is saw_no_rain or saw_rain exactly when the raw string is, and none otherwise |
| RainModel.SecondSignalUpdate | public/js/rain/rain_model.js:129-138 | with no observation the second step is the identity (event 1, numerator and posterior the belief); otherwise it is a Bayes update of the belief |
| RainModel.DeriveSequentialState | public/js/rain/rain_model.js:117-172 | saw_no_rain replaces the second likelihoods by their complements; no observation leaves posterior = posteriorAfterTestimony, event 1 and numerator = posteriorAfterTestimony; otherwise the second step is a Bayes update; each step's bits are 0 at a near-zero belief; logEvidence is their sum; klUpdateCost is 0 when the belief does not move |
| RainModel.SequentialExtendsSingle | public/js/rain/rain_model.js:89-172 | the first step of the sequential state is exactly deriveState's single update |
| EpZero.ClampInt | public/js/epzero/epzero_model.js:8-20 | clampInt gives the minimum for a non-finite value, stays in [min, max], keeps a rounded value already inside, and gives min for a rounded value below and max for one above |
| EpZero.ClampIntOfWhole | public/js/epzero/epzero_model.js:8-20 | a whole number already in range is returned unchanged |
| EpZero.QuestionByKey | public/js/epzero/epzero_model.js:26-77 | a key finds a question exactly when it is one of the bank's keys, and the question found carries that key |
| EpZero.PrimeTest | public/js/epzero/epzero_model.js:38-52 | the trial-division loop answers exactly whether n is prime |
| EpZero.PrimeTestMeansPrime | public/js/epzero/epzero_model.js:38-52 | testing divisors only up to √n decides primality: n ≥ 2 and no d in 2..n−1 divides n |
| EpZero.BandsPartition | public/js/epzero/epzero_model.js:57-76 | the four band questions cover exactly 1..100 and no two overlap |
| EpZero.RunTest | public/js/epzero/epzero_model.js:26-77 | running a question's test answers whether the number has the property |
| EpZero.NormalAnswer | public/js/epzero/epzero_model.js:109-122 | an answer becomes "no" exactly when it is "no", and "yes" otherwise |
| EpZero.Normalized | public/js/epzero/epzero_model.js:111-116 | a normalised constraint keeps its key and normalises its answer |
| EpZero.NormalizedAll | public/js/epzero/epzero_model.js:110-116 | the map keeps the length and normalises each constraint |
| EpZero.EvaluateConstraint | public/js/epzero/epzero_model.js:88-95 | an unknown key accepts every number; a known one accepts it iff (answer is "yes") ⟺ (the test holds) |
| EpZero.PassesAll | public/js/epzero/epzero_model.js:99-106 | the filter callback accepts a number iff it satisfies every constraint |
| EpZero.Universe | public/js/epzero/epzero_model.js:79-86 | the universe has max entries and entry k is k + 1 |
| EpZero.UniverseMembers | public/js/epzero/epzero_model.js:79-86 | the universe is strictly increasing and holds exactly 1..max |
| EpZero.CreateUniverse | public/js/epzero/epzero_model.js:79-86 | the counting loop builds the universe for clampInt(maxNumber, 2, 1000) |
| EpZero.Keep | public/js/epzero/epzero_model.js:97-107 | the filter keeps exactly the numbers that satisfy every constraint and never grows |
| EpZero.BuildActiveSet | public/js/epzero/epzero_model.js:97-107 | the filter loop builds the active set |
| EpZero.ActiveSetMembers | public/js/epzero/epzero_model.js:97-107 | a number is active iff it lies in 1..max and satisfies every constraint |
| EpZero.KeepIncreasing | public/js/epzero/epzero_model.js:97-107 | filtering a strictly increasing list keeps it strictly increasing |
| EpZero.ActiveSetIncreasing | public/js/epzero/epzero_model.js:97-107 | the active list is strictly increasing |
| EpZero.KeepDependsOnlyOnTests | public/js/epzero/epzero_model.js:97-107 | two constraint lists that accept the same numbers filter identically |
| EpZero.ActiveSetOrderIndependent | public/js/epzero/epzero_model.js:97-107 | reordering or repeating constraints does not change the active set |
| EpZero.BuildState | public/js/epzero/epzero_model.js:109-122 | buildState stores max clamped into 2..1000 as maxNumber, normalises the answers, and keeps exactly the numbers in 1..max that satisfy them |
| EpZero.BuildStateConsistent | public/js/epzero/epzero_model.js:109-122 | every built state is consistent: clamped max, normal answers, active set equal to the filter |
| EpZero.RebuildConsistent | public/js/epzero/epzero_model.js:109-122 | rebuilding a consistent state from its own max and constraints gives it back |
| EpZero.InitialState | public/js/epzero/epzero_model.js:124-126 | the initial state is consistent with no constraints, and a falsy max gives the full universe 1..100 |
| EpZero.NoConstraintsKeepAll | public/js/epzero/epzero_model.js:97-107 | with no constraints the filter keeps everything |
| EpZero.ApplyConstraint | public/js/epzero/epzero_model.js:128-135 | applying appends one normalised constraint, keeps max and consistency, and only removes numbers from the active set |
| EpZero.YesNoPartition | public/js/epzero/epzero_model.js:128-135 | for a known question, answering "yes" and answering "no" split the active set into two disjoint parts; an unknown question changes nothing |
| EpZero.ActiveSetOrderIndependentOnUnknown | public/js/epzero/epzero_model.js:88-95 | a constraint on an unknown question leaves the active set as it was |
| EpZero.RemoveLastConstraint | public/js/epzero/epzero_model.js:137-143 | undo returns the state unchanged when there is nothing to undo, and otherwise drops exactly the last constraint, keeping max and consistency |
| EpZero.UndoAfterApply | public/js/epzero/epzero_model.js:128-143 | undo after apply gives back the original consistent state |
| EpZero.GameMetrics | public/js/epzero/epzero_model.js:145-154 | total is max and remaining is the active count; eliminated is never negative and is their difference when remaining ≤ total |
| EpZero.MetricsAddUp | public/js/epzero/epzero_model.js:145-154 | on a consistent state remaining ≤ total and eliminated + remaining = total |
| EpZero.DescribeConstraint | public/js/epzero/epzero_model.js:156-160 | the text is the question's title (or the raw key) followed by " = No" or " = Yes" |
| EpZero.DescriptionShowsAnswer | public/js/epzero/epzero_model.js:156-160 | two descriptions of the same question agree exactly when the normalised answers do |
| FrequencyBars.CalculateTree | public/js/rain/rain_frequency_bars.js:22-62 | the tree splits exactly (rains + notRains = total and each branch splits its parent); rains, true alarms and false alarms are the rounded shares |
| FrequencyBars.RoundedShare | public/js/rain/rain_frequency_bars.js:45-52 | the rounded share of a count by a probability lies between 0 and the count |
| FrequencyBars.TreeCountsNonNegative | public/js/rain/rain_frequency_bars.js:45-62 | with inputs in [0, 1] all six counts are non-negative |
| FrequencyBars.FrequencyPosterior | public/js/rain/rain_frequency_bars.js:175-177 | the displayed posterior times the alarms is the true alarms; it is 0 with no alarms, and a probability for non-negative counts |
| FrequencyBars.CanonicalTree | public/js/rain/rain_frequency_bars.js:23-62 | prior 0.3, hit rate 0.85 and false-alarm rate 0.10 give 300/700/255/45/70/630 and a posterior of 255/325 |
| FrequencyBars.FallbackDiffersFromRainModel | public/js/rain/rain_frequency_bars.js:175-177 | with no alarms the bars show 0 while the probability model keeps the prior of 1 |
| FrequencyBars.OptionsOrEmpty | public/js/rain/rain_frequency_bars.js:243 | a missing options object reads as all options missing |
| FrequencyBars.FrequencyBarsView.Update | public/js/rain/rain_frequency_bars.js:260-264 | update stores the tree of the clamped arguments over 1000 days, and the stored tree stays well formed |
| FrequencyBars.FrequencyBarsView.Init | public/js/rain/rain_frequency_bars.js:242-248 | init takes reducedMotion from the options and replaces each falsy probability by 0.3 / 0.85 / 0.15 before updating |
| FrequencyBars.FrequencyBarsView.SetReducedMotion | public/js/rain/rain_frequency_bars.js:266-268 | sets the flag and keeps the tree |
| FrequencyBars.InitReplacesZero | public/js/rain/rain_frequency_bars.js:246 | an explicit 0 is replaced by the default |
| PriorSlider.JsDivide | public/js/explorables/prior-slider.js:49-60 | division gives the real quotient for a non-zero divisor and a non-finite number for a zero one |
| PriorSlider.CalculateShift | public/js/explorables/prior-slider.js:49-60 | the shift is finite exactly when the widget's own evidence is non-zero |
| PriorSlider.SliderEvidenceBounds | public/js/explorables/prior-slider.js:37-56 | on the slider's range the evidence is 0.1 + 0.75·prior ≥ 0.1075 and equals the probability model's evidence |
| PriorSlider.ShiftMatchesPosterior | public/js/explorables/prior-slider.js:49-60 | on the slider's range the shift is finite and prior + shift/100 equals the probability model's posterior |
| PriorSlider.ShiftSign | public/js/explorables/prior-slider.js:49-60 | for a prior strictly inside (0, 1) the shift is positive, zero or negative as P(T\|R) is above, equal to or below P(T\|¬R) |
| PriorSlider.CanonicalShift | public/js/explorables/prior-slider.js:14-21 | the starting readout is (255/325 − 0.3)·100 points |
| PriorSlider.ShiftOfZeroEvidence | public/js/explorables/prior-slider.js:49-60 | with no guard, prior 0 and no false alarms give NaN |
| PriorSlider.PosteriorOfZeroEvidence | public/js/rain/rain_model.js:56-65 | the probability model falls back to the prior 0 in the same case |
| PriorSlider.PriorSliderExplorable.constructor | public/js/explorables/prior-slider.js:14-47 | the widget starts valid at prior 0.30 with the canonical shift readout |
| PriorSlider.PriorSliderExplorable.Update | public/js/explorables/prior-slider.js:72-78 | update keeps the fields and recomputes both readouts |
| PriorSlider.PriorSliderExplorable.OnInput | public/js/explorables/prior-slider.js:62-78 | an input within the slider's range sets the prior, keeps the likelihoods fixed, and shows a finite shift that lands on the probability model's posterior |
| BayesPanel.AtLeast | references/prototypes/rain_bayes_panel_d3.js:54-57 | Math.max(lo, v) of a number that is not NaN is at least lo, is finite or +∞, and is max(lo, v) for a finite v |
| BayesPanel.ClampedMean | references/prototypes/rain_bayes_panel_d3.js:53 | the mean is clamped into [1e-6, 1 − 1e-6] and kept when already there |
| BayesPanel.Concentration | references/prototypes/rain_bayes_panel_d3.js:54 | the concentration is a valid shape parameter (at least 1e-3 or +∞) and is 1 when the option is falsy |
| BayesPanel.Weighted | references/prototypes/rain_bayes_panel_d3.js:56-57 | a positive weight times a shape parameter is never NaN and is the plain product for a finite one |
| BayesPanel.BetaShape | references/prototypes/rain_bayes_panel_d3.js:52-59 | alpha and beta are always at least 1e-3 (or +∞ for an infinite concentration) |
| BayesPanel.BetaShapeKeepsMean | references/prototypes/rain_bayes_panel_d3.js:52-59 | when neither floor bites, the Beta mean alpha/(alpha + beta) is the clamped mean |
| BayesPanel.RawBetaDensity | references/prototypes/rain_bayes_panel_d3.js:61-69 | the density is evaluated at x clamped into [1e-6, 1 − 1e-6]; a finite non-negative value is kept and anything else becomes 0 |
| BayesPanel.CurveSize | references/prototypes/rain_bayes_panel_d3.js:73 | the sample count is at least 16, and 320 when the option is falsy |
| BayesPanel.Grid | references/prototypes/rain_bayes_panel_d3.js:74-83 | the grid has count points |
| BayesPanel.GridPoints | references/prototypes/rain_bayes_panel_d3.js:76-83 | grid point i is i/(count − 1): it runs from 0 to 1 and is strictly increasing |
| BayesPanel.RunningMonotone | references/prototypes/rain_bayes_panel_d3.js:98-105 | over a non-negative pdf the trapezoid running total never decreases |
| BayesPanel.CdfOf | references/prototypes/rain_bayes_panel_d3.js:94-107 | the CDF has one entry per grid point, each the trapezoid running total, except the last, which is forced to 1 |
| BayesPanel.CdfOfShape | references/prototypes/rain_bayes_panel_d3.js:94-107 | for a non-negative pdf of total area at most 1, the CDF starts at 0, ends at 1 and is nondecreasing |
| BayesPanel.PeakIsMaximum | references/prototypes/rain_bayes_panel_d3.js:96-100 | maxY is at least every pdf value and is one of them unless it is 0 |
| BayesPanel.RawValues | references/prototypes/rain_bayes_panel_d3.js:80-88 | the raw density samples are count non-negative values |
| BayesPanel.AreaDivisor | references/prototypes/rain_bayes_panel_d3.js:90-92 | the area used for normalising is positive: the area itself when above 1e-6, else 1 |
| BayesPanel.Normalized | references/prototypes/rain_bayes_panel_d3.js:98-99 | each pdf value is divided by the area |
| BayesPanel.NormalizedIsDistribution | references/prototypes/rain_bayes_panel_d3.js:90-107 | after normalising, the pdf is non-negative with area at most 1, and its CDF starts at 0, ends at 1 and is nondecreasing |
| BayesPanel.CurveIsDistribution | references/prototypes/rain_bayes_panel_d3.js:71-115 | every built curve has xs, pdf and cdf of the same length, a non-negative pdf and a CDF from 0 to 1 that never decreases |
| BayesPanel.BuildCurve | references/prototypes/rain_bayes_panel_d3.js:71-115 | the two loops build exactly the specified curve for the Beta shape of the mean and concentration |
| BayesPanel.SampleDensity | references/prototypes/rain_bayes_panel_d3.js:80-88 | the first loop fills the grid and the raw samples and accumulates the trapezoid area |
| BayesPanel.NormalizeDensity | references/prototypes/rain_bayes_panel_d3.js:90-107 | the second loop divides by the area in place, accumulates the CDF and tracks the peak |
| BayesPanel.BuildCdfFromCurve | references/prototypes/rain_bayes_panel_d3.js:181-194 | the loop gives the trapezoid CDF with its last entry forced to 1 (just [1] for one point, [] for none) |
| BayesPanel.CdfFromCurveAgrees | references/prototypes/rain_bayes_panel_d3.js:181-194 | rebuilding the CDF from a curve's pdf gives the curve's own CDF |
| BayesPanel.InvertQuantile | references/prototypes/rain_bayes_panel_d3.js:117-141 | for a nondecreasing CDF the quantile interpolates inside the first bin that reaches the clamped q, and is xs[0] when cdf[0] already reaches it |
| BayesPanel.QuantileInBin | references/prototypes/rain_bayes_panel_d3.js:131-140 | the quantile lies in (xs[lo − 1], xs[lo]] for the first index lo that reaches the target |
| BayesPanel.QuantileMonotone | references/prototypes/rain_bayes_panel_d3.js:117-141 | the quantile never decreases as q grows |
| BayesPanel.ComputeEti | references/prototypes/rain_bayes_panel_d3.js:143-148 | the equal-tailed interval is the 2.5% and 97.5% quantiles, and low ≤ high for a nondecreasing CDF and grid |
| BayesPanel.ComputeHdi | references/prototypes/rain_bayes_panel_d3.js:150-179 | the two-pointer search terminates and returns either the whole grid or a recorded window of mass at least the clamped target, narrower than 1, with i ≤ j when the target is positive and the CDF nondecreasing |
| BayesPanel.SampleFromCdf | references/prototypes/rain_bayes_panel_d3.js:196-219 | the sample is always in [0, 1], 0 for an empty CDF, and the specified inverse-CDF point otherwise |
| BayesPanel.SampleOf | references/prototypes/rain_bayes_panel_d3.js:196-219 | the inverse-CDF sample is in [0, 1] and is 0 when cdf[0] already reaches the clamped draw |
| BayesPanel.SampleInBin | references/prototypes/rain_bayes_panel_d3.js:196-219 | the sample lies in the slice of [0, 1] belonging to the bin the draw falls into |
| BayesPanel.FreshPool | references/prototypes/rain_bayes_panel_d3.js:395-408 | initializeParticles creates particleCount particles |
| BayesPanel.FreshPoolAtRest | references/prototypes/rain_bayes_panel_d3.js:395-408 | a fresh particle k has id k and sits at rest on its target in [0, 1] |
| BayesPanel.Resampled | references/prototypes/rain_bayes_panel_d3.js:474-478 | resampling keeps the number of particles |
| BayesPanel.ResampledAtRest | references/prototypes/rain_bayes_panel_d3.js:474-478 | after the reset every particle has p == target in [0, 1] and keeps its id |
| BayesPanel.Retargeted | references/prototypes/rain_bayes_panel_d3.js:436-439 | retargeting keeps the number of particles |
| BayesPanel.RetargetedKeepsPositions | references/prototypes/rain_bayes_panel_d3.js:436-439 | retargeting keeps each particle's position and id and gives it a posterior sample as target |
| BayesPanel.Settled | references/prototypes/rain_bayes_panel_d3.js:445-450 | settling keeps the number of particles |
| BayesPanel.SettledAtRest | references/prototypes/rain_bayes_panel_d3.js:445-450 | settling moves each particle onto its target, which it keeps |
| BayesPanel.SettledKeepsIds | references/prototypes/rain_bayes_panel_d3.js:445-450 | settling keeps ids |
| BayesPanel.InstantDriftAtRest | references/prototypes/rain_bayes_panel_d3.js:436-452 | the unanimated drift leaves every particle at rest on its posterior sample, with its id |
| BayesPanel.DrawPool | references/prototypes/rain_bayes_panel_d3.js:398-407 | the loop builds the fresh pool |
| BayesPanel.ParticlePool.constructor | references/prototypes/rain_bayes_panel_d3.js:231-241 | the pool starts empty with the panel's options |
| BayesPanel.ParticlePool.CdfFor | references/prototypes/rain_bayes_panel_d3.js:396-397 | the CDF the particle code samples has at least 16 entries and never decreases |
| BayesPanel.ParticlePool.Distribution | references/prototypes/rain_bayes_panel_d3.js:396-397 | building the curve and its CDF gives that CDF whenever the sample count yields a curve |
| BayesPanel.ParticlePool.InitializeParticles | references/prototypes/rain_bayes_panel_d3.js:395-408 | the pool becomes particleCount fresh particles drawn from the prior |
| BayesPanel.ParticlePool.ResetParticlesToPrior | references/prototypes/rain_bayes_panel_d3.js:468-480 | an empty pool is first initialised; then every particle is resampled from the prior and left at rest |
| BayesPanel.ParticlePool.PlayDriftToPosterior | references/prototypes/rain_bayes_panel_d3.js:428-466 | an empty pool is first initialised; every particle gets a posterior target, and without animation (or under reduced motion) lands on it at once |
| BayesPanel.ParticlePool.Retarget | references/prototypes/rain_bayes_panel_d3.js:436-439 | the in-place loop retargets every particle |
| BayesPanel.ParticlePool.Settle | references/prototypes/rain_bayes_panel_d3.js:445-450 | the in-place loop moves every particle onto its target |
| BayesPanel.ParticlePool.Resample | references/prototypes/rain_bayes_panel_d3.js:474-478 | the in-place loop resamples every particle |
| ConditionalGeometry.ParsePerspective | public/js/rain/rain_conditional_d3.js:1170-1171 | "rain", "testimony" and "not_rain" are recognised and every other key is the universe |
| ConditionalGeometry.ParseEventKey | public/js/rain/rain_conditional_d3.js:1210-1212 | only "rain", "testimony" and "not_rain" name an event; anything else highlights nothing |
| ConditionalGeometry.ParseStage | public/js/rain/rain_conditional_d3.js:1196-1200 | only "universe", "subset" and "renormalized" name a stage |
| ConditionalGeometry.OverlapWidth | public/js/rain/rain_conditional_d3.js:45-49 | the overlap of two intervals is never negative and no wider than either well-formed interval |
| ConditionalGeometry.OverlapSymmetric | public/js/rain/rain_conditional_d3.js:45-49 | the overlap does not depend on the order of its arguments |
| ConditionalGeometry.TestimonyInterval | public/js/rain/rain_conditional_d3.js:77-81 | the testimony interval lies in [0, 1], straddles the prior, is t·p + f·(1 − p) wide, and its part left of the prior is t·p wide |
| ConditionalGeometry.GetIntervals | public/js/rain/rain_conditional_d3.js:64-84 | rain is [0, prior] and not-rain [prior, 1] of the clamped prior, all three intervals lie in [0, 1], the testimony interval straddles the prior, and every reported probability is clamped |
| ConditionalGeometry.TestimonyWidthIsEvidence | public/js/rain/rain_conditional_d3.js:64-84 | the testimony interval is exactly as wide as the probability model's evidence |
| ConditionalGeometry.ReportedEvidence | public/js/rain/rain_conditional_d3.js:68-75 | the panel's own pTestimony equals the probability model's evidence |
| ConditionalGeometry.TestimonyOverlapIsNumerator | public/js/rain/rain_conditional_d3.js:64-84 | the overlap of rain and testimony is P(T\|R)·P(R) |
| ConditionalGeometry.ConditionalProbability | public/js/rain/rain_conditional_d3.js:1037-1047 | a readout is undefined exactly when the conditioning interval is at most 1e-9 wide, and otherwise is the probability overlap/width |
| ConditionalGeometry.ComputeReadouts | public/js/rain/rain_conditional_d3.js:1022-1071 | the three readouts condition on the raw perspective domain; the formula shows the rain overlap over max(0, width) |
| ConditionalGeometry.GeometryMatchesBayes | public/js/rain/rain_conditional_d3.js:1022-1071 | conditioned on testimony, P(R\|T) read off the geometry is the probability model's posterior |
| ConditionalGeometry.SplitOverlap | public/js/rain/rain_conditional_d3.js:76-82 | rain and not-rain split any interval inside [0, 1] between them |
| ConditionalGeometry.RainAndNotRainSumToOne | public/js/rain/rain_conditional_d3.js:1037-1047 | whenever defined, P(R\|·) + P(¬R\|·) = 1 under every perspective |
| ConditionalGeometry.ConditioningOnItself | public/js/rain/rain_conditional_d3.js:1037-1047 | an interval conditioned on itself has probability 1 |
| ConditionalGeometry.NormalizeDomain | public/js/rain/rain_conditional_d3.js:99-121 | the display domain is a sorted interval inside [0, 1] that contains the clamped, sorted input; it is the input when at least 1e-4 wide; a narrower one is widened to 1e-4, ends at 1 when it touches 1 or its start lies within 1e-4 of 1; widthRaw is max(0, end − start) of the raw input |
| ConditionalGeometry.NormalizeIdentityOnWideDomains | public/js/rain/rain_conditional_d3.js:99-121 | a sorted domain in [0, 1] at least 1e-4 wide is displayed as it is |
| ConditionalGeometry.DisplayDomainFor | public/js/rain/rain_conditional_d3.js:1087-1095 | the display domain is a proper interval of [0, 1], and the whole line in the universe or during the subset stage |
| ConditionalGeometry.SamplingDomainFor | public/js/rain/rain_conditional_d3.js:402-411 | drops sample the whole line during the subset stage of a conditioned view and the raw domain otherwise, with a non-negative width |
| ConditionalGeometry.Layout | public/js/rain/rain_conditional_d3.js:734-760 | the chart is at least 320×270 with the fixed margins, and the three shelves are in order, inside the inner height and more than 50 px apart |
| ConditionalGeometry.WrapForward | public/js/rain/rain_conditional_d3.js:1294-1295 | (i + 1) mod n wraps from the last tab to the first |
| ConditionalGeometry.WrapBackward | public/js/rain/rain_conditional_d3.js:1296-1297 | (i − 1 + n) mod n wraps from the first tab to the last |
| ConditionalGeometry.ParseTabKey | public/js/rain/rain_conditional_d3.js:1271-1282 | the arrow keys, Home and End are the only keys handled |
| ConditionalGeometry.NextTabIndex | public/js/rain/rain_conditional_d3.js:1271-1310 | a handled key with tabs present gives a valid index: the next or previous tab with wrap-around (from tab 0 when the button is not found), the first, or the last |
| ConditionalDrops.CandidateStops | public/js/rain/rain_conditional_d3.js:430-447 | at most three stops are pushed, each at its shelf's row top less the drop radius (never below 0) |
| ConditionalDrops.CandidateMember | public/js/rain/rain_conditional_d3.js:430-447 | every pushed stop is the stop of an event whose interval contains u within 1e-9 |
| ConditionalDrops.CandidateStopsExactly | public/js/rain/rain_conditional_d3.js:430-447 | an event's stop is pushed exactly when its interval contains u within 1e-9 |
| ConditionalDrops.InsertStop | public/js/rain/rain_conditional_d3.js:449-451 | inserting into a sorted list keeps it sorted and adds exactly the one stop |
| ConditionalDrops.SortStops | public/js/rain/rain_conditional_d3.js:449-451 | the sort orders stops by ascending target height and is a permutation |
| ConditionalDrops.SortSortedIsIdentity | public/js/rain/rain_conditional_d3.js:449-451 | sorting an already sorted list changes nothing |
| ConditionalDrops.DedupedKeepsFirst | public/js/rain/rain_conditional_d3.js:453-460 | the dedup keeps a sub-collection of the stops that starts with the first one |
| ConditionalDrops.DedupedSpacing | public/js/rain/rain_conditional_d3.js:453-460 | consecutive kept stops are more than 1 px apart |
| ConditionalDrops.DedupedSorted | public/js/rain/rain_conditional_d3.js:453-460 | deduping a sorted list keeps it sorted |
| ConditionalDrops.DedupedCovers | public/js/rain/rain_conditional_d3.js:453-460 | every stop dropped by the dedup lies within 1 px of a kept one |
| ConditionalDrops.DedupStops | public/js/rain/rain_conditional_d3.js:453-462 | the loop computes the specified dedup |
| ConditionalDrops.BuildDropStops | public/js/rain/rain_conditional_d3.js:424-463 | no layout or intervals gives no stops; otherwise the stops are exactly the candidate shelves sorted and deduped, so they ascend by more than 1 px, each is the shelf of an event containing u, and every shelf whose event contains u is within 1 px of a kept stop |
| ConditionalDrops.ShelvesContainingUAreCovered | public/js/rain/rain_conditional_d3.js:430-462 | every shelf of an event whose interval contains u lies within 1 px of a stop the sort and dedup keep |
| ConditionalDrops.SortedDedupedAscends | public/js/rain/rain_conditional_d3.js:449-460 | after sorting and deduping, the heights strictly ascend by more than 1 px |
| ConditionalDrops.DedupedCandidatesAreShelves | public/js/rain/rain_conditional_d3.js:430-460 | every stop that survives sorting and deduping is the stop of an event containing u |
| ConditionalDrops.SegmentDuration | public/js/rain/rain_conditional_d3.js:484-490 | a segment lasts at least 40 ms |
| ConditionalDrops.BuildDropSegments | public/js/rain/rain_conditional_d3.js:465-494 | the loops build exactly the segments joining the top of the plot, each stop and the bottom in turn; one segment per stop plus one, contiguous, from y = 0 to the inner height plus 8, ending on each stop with its event, the last with none, each lasting at least 40 ms |
| ConditionalDrops.DropSegmentsChain | public/js/rain/rain_conditional_d3.js:465-494 | the path segments are contiguous, start at the top and end at the bottom, end on each stop with its event and the last on none, and last as long as their length calls for |
| ConditionalDrops.MarkHit | public/js/rain/rain_conditional_d3.js:516-518 | marking sets that event's hit flag and leaves the others |
| ConditionalDrops.StepOneDrop | public/js/rain/rain_conditional_d3.js:496-524 | a finished drop is untouched; a step advances the segment index by at most one and keeps the drop's identity, stops and segments; the drop is done exactly when the index reaches the number of segments |
| ConditionalDrops.StepOneDropHits | public/js/rain/rain_conditional_d3.js:506-523 | a step inside a segment only adds dt to its clock; finishing a segment snaps the drop to its end, resets the clock and records exactly that segment's event as hit |
| ConditionalDrops.LongFrameFinishesSegment | public/js/rain/rain_conditional_d3.js:506-519 | a step whose time reaches the segment's duration always finishes the segment |
| ConditionalDrops.SpawnedDrop | public/js/rain/rain_conditional_d3.js:535-552 | a new drop starts at the top of its first segment with no hits recorded, and its hit flags say which intervals contain u |
| ConditionalPanel.CycleIndexOf | public/js/rain/rain_conditional_d3.js:654-657 | every perspective has a position in the cycle order naming it |
| ConditionalPanel.OptionAtLeast | public/js/rain/rain_conditional_d3.js:205-206 | Math.max(lo, Number(option) \|\| fallback) is never NaN, at least lo, and uses the fallback exactly for a falsy option |
| ConditionalPanel.FrameDelta | public/js/rain/rain_conditional_d3.js:599-604 | the frame delta is clamped to [0, 64] ms, is 0 on the first frame and the elapsed time when that is in range |
| ConditionalPanel.FallbackPosterior | public/js/rain/rain_conditional_d3.js:1251-1252 | the posterior update recomputes is a probability |
| ConditionalPanel.PanelEvidenceIsEvidence | public/js/rain/rain_conditional_d3.js:1251 | the panel's evidence expression is the probability model's evidence |
| ConditionalPanel.FallbackPosteriorIsBayes | public/js/rain/rain_conditional_d3.js:1251-1252 | above the threshold the recomputed posterior is the probability model's posterior |
| ConditionalPanel.StepAll | public/js/rain/rain_conditional_d3.js:612-620 | stepping the population never grows it |
| ConditionalPanel.StepAllKeepsLive | public/js/rain/rain_conditional_d3.js:612-620 | after a step the population is still live drops with increasing ids, none newer than before |
| ConditionalPanel.StepAllSurvivors | public/js/rain/rain_conditional_d3.js:612-620 | every survivor is a stepped drop, and every stepped drop that is not done survives |
| ConditionalPanel.WithinCapDown | public/js/rain/rain_conditional_d3.js:607 | removing drops never breaks the cap |
| ConditionalPanel.InitialState | public/js/rain/rain_conditional_d3.js:189-222 | the seeded state is valid and not running, with maxDrops at least 40 and spawnMs at least 20 from the options |
| ConditionalPanel.InitialStateIsCanonical | public/js/rain/rain_conditional_d3.js:189-193 | the seeded probabilities are the canonical preset: evidence 0.325 and a Bayes posterior of 0.255/0.325, which the seeded 0.785 matches to three places |
| ConditionalPanel.Refreshed | public/js/rain/rain_conditional_d3.js:633-643 | after refreshRunningState the frame timer runs exactly when not reduced, requested, visible and not paused; only the timer fields change, and a stop clears the clock and accumulated time |
| ConditionalPanel.Rendered | public/js/rain/rain_conditional_d3.js:1109-1116 | renderAll changes no modelled state unless in reduced motion, where it stops the timer and empties the drops |
| ConditionalPanel.RefreshAndRenderSettled | public/js/rain/rain_conditional_d3.js:633-643 | on a valid settled state, refreshing and rendering change nothing |
| ConditionalPanel.DirectChange | public/js/rain/rain_conditional_d3.js:1176-1190 | a direct perspective change sets the perspective (and the user's when the user chose it), lands in universe or renormalized, ends any transition, and leaves the timer as refreshRunningState decides |
| ConditionalPanel.StagedChange | public/js/rain/rain_conditional_d3.js:1119-1142 | a staged change enters the subset stage with the simulation paused and the timer stopped |
| ConditionalPanel.DirectChangeValid | public/js/rain/rain_conditional_d3.js:1176-1190 | a direct change keeps the state valid with no stage timer pending, and keeps the inputs and drops |
| ConditionalPanel.StagedChangeValid | public/js/rain/rain_conditional_d3.js:1119-1165 | a staged change keeps the state valid and leaves exactly one pending 260 ms renormalize callback under the new token and perspective |
| ConditionalPanel.RenormalizingValid | public/js/rain/rain_conditional_d3.js:1144-1155 | the renormalize callback keeps the state valid and hands over to a 360 ms unpause callback under the same token |
| ConditionalPanel.UnpausedValid | public/js/rain/rain_conditional_d3.js:1156-1164 | the unpause callback ends the transition, keeps the state valid and leaves nothing pending |
| ConditionalPanel.NarrativeStageSet | public/js/rain/rain_conditional_d3.js:1196-1208 | a known stage is set, the transition ends and the timer follows refreshRunningState |
| ConditionalPanel.NarrativeStageSetValid | public/js/rain/rain_conditional_d3.js:1196-1208 | setting a stage keeps the state valid with nothing pending |
| ConditionalPanel.ReducedMotionSwitched | public/js/rain/rain_conditional_d3.js:1216-1234 | switching reduced motion on saves the running request, clears it, stops the timer and empties the drops; switching it off restores the saved request; either way the stage lands and the transition ends |
| ConditionalPanel.ReducedMotionRoundTrip | public/js/rain/rain_conditional_d3.js:1216-1234 | switching reduced motion on and then off restores the running request |
| ConditionalPanel.ReducedMotionSwitchedValid | public/js/rain/rain_conditional_d3.js:1216-1234 | switching reduced motion keeps the state valid with nothing pending |
| ConditionalPanel.UpdatedPosterior | public/js/rain/rain_conditional_d3.js:1248-1253 | the stored posterior is a probability, and a finite supplied posterior is stored clamped |
| ConditionalPanel.UpdatedPosteriorRecomputes | public/js/rain/rain_conditional_d3.js:1250-1253 | without a finite supplied posterior, update stores the probability model's posterior, or the prior at zero evidence |
| ConditionalPanel.Reweighted | public/js/rain/rain_conditional_d3.js:1236-1253 | each supplied probability is stored clamped, the others are kept, and nothing else changes |
| ConditionalPanel.ReweightedValid | public/js/rain/rain_conditional_d3.js:1236-1253 | new probabilities keep the state and any pending stage valid and do not touch the timer |
| ConditionalPanel.StepKeepsValid | public/js/rain/rain_conditional_d3.js:612-620 | proof helper: stepping the drops keeps the state valid |
| ConditionalPanel.Panel.constructor | public/js/rain/rain_conditional_d3.js:189-222 | the panel starts valid in the seeded state with no stage timer, no cycle and token 0 |
| ConditionalPanel.Panel.StopTimer | public/js/rain/rain_conditional_d3.js:388-396 | stopping clears the running flag, the frame clock and the accumulated time |
| ConditionalPanel.Panel.StartTimer | public/js/rain/rain_conditional_d3.js:624-631 | starting does nothing when already running or in reduced motion, and otherwise starts with no frame clock |
| ConditionalPanel.Panel.StartPerspectiveCycle | public/js/rain/rain_conditional_d3.js:650-663 | starting the cycle is idempotent, and a new cycle starts at the current perspective |
| ConditionalPanel.Panel.StopPerspectiveCycle | public/js/rain/rain_conditional_d3.js:665-670 | the cycle is stopped |
| ConditionalPanel.Panel.RefreshRunningState | public/js/rain/rain_conditional_d3.js:633-643 | the frame timer and the cycle both run exactly when the running condition holds; a cycle that starts again starts from the current perspective's place in the cycle order, otherwise the index is kept |
| ConditionalPanel.Panel.RenderAll | public/js/rain/rain_conditional_d3.js:1075-1117 | the state becomes the rendered state |
| ConditionalPanel.Panel.ClearNarrativeTransition | public/js/rain/rain_conditional_d3.js:379-386 | the pending stage callback is cancelled, the token moves on and the transition ends unpaused |
| ConditionalPanel.Panel.ScheduleStage | public/js/rain/rain_conditional_d3.js:357-377 | scheduling replaces any pending stage callback, so at most one is ever pending, with its delay floored at 0 |
| ConditionalPanel.Panel.SetRunning | public/js/rain/rain_conditional_d3.js:645-648 | the request is stored and the timer then runs exactly when requested, not reduced, visible and not paused; a restarted cycle starts from the current perspective; the token, the pending callback and the measured size are untouched |
| ConditionalPanel.Panel.OnVisibilityChange | public/js/rain/rain_conditional_d3.js:1369-1372 | the visibility is stored and a hidden page stops the simulation; a restarted cycle starts from the current perspective; the token, the pending callback and the measured size are untouched |
| ConditionalPanel.Panel.OnIntersection | public/js/rain/rain_conditional_d3.js:1341-1348 | an empty entry list changes nothing; otherwise only the last entry's visibility is recorded, and neither the running state nor the cycle changes; the token, the pending callback and the measured size are untouched |
| ConditionalPanel.Panel.OnResize | public/js/rain/rain_conditional_d3.js:1356-1366 | a resize re-measures the layout; the state is unchanged, and the token, the pending callback and the cycle are untouched |
| ConditionalPanel.Panel.SetPerspective | public/js/rain/rain_conditional_d3.js:1168-1194 | every call moves the token on; an unknown name is the universe; a real change reports the new perspective and the source ("engine" when none is given) to the host, and an unchanged one reports nothing; a direct change lands at once with nothing pending and the cycle running exactly when the panel should run; a staged one leaves one renormalize callback for the new perspective and the cycle stopped; a cycle that starts again starts from the new perspective, otherwise the cycle index is kept; the inputs and drops are kept |
| ConditionalPanel.ReportedSource | public/js/rain/rain_conditional_d3.js:1182 | a reported change carries the caller's source, or "engine" when the caller gave none |
| ConditionalPanel.ChangeReport | public/js/rain/rain_conditional_d3.js:1172-1183 | onPerspectiveChange is called at most once, exactly when the perspective really changes, with the new key and the reported source |
| ConditionalPanel.Panel.LandPerspective | public/js/rain/rain_conditional_d3.js:1185-1190 | the direct path cancels, lands the stage, renders and refreshes; the cycle runs exactly when the panel should, and restarts from the new perspective only if it was stopped |
| ConditionalPanel.DirectChangeRunsWhenRequested | public/js/rain/rain_conditional_d3.js:633-643 | after a direct change the panel should run (timer and cycle) exactly when running is requested, the page is visible and motion is not reduced |
| ConditionalPanel.Panel.BeginStagedPerspectiveTransition | public/js/rain/rain_conditional_d3.js:1119-1166 | the staged path cancels, enters the paused subset stage, stops the cycle and schedules the renormalize step under the new token |
| ConditionalPanel.Panel.FireStageTimer | public/js/rain/rain_conditional_d3.js:1144-1165 | nothing pending changes nothing; a pending renormalize callback moves to renormalized and schedules the unpause, leaving the cycle alone; a pending unpause ends the transition, and a cycle it restarts starts from the current perspective; the token is kept |
| ConditionalPanel.Panel.RenormalizeStep | public/js/rain/rain_conditional_d3.js:1144-1155 | the first stage callback's guard always passes for the pending callback, and it moves to renormalized and schedules the unpause |
| ConditionalPanel.Panel.UnpauseStep | public/js/rain/rain_conditional_d3.js:1156-1164 | the second stage callback's guard always passes, and it ends the transition and resumes, restarting the cycle from the current perspective if it had stopped |
| ConditionalPanel.Panel.SetNarrativeStage | public/js/rain/rain_conditional_d3.js:1196-1208 | an unknown stage changes nothing; a known one cancels any transition (token moved on, nothing pending) and sets the stage, and a cycle it restarts starts from the current perspective |
| ConditionalPanel.Panel.SetHighlightedEvent | public/js/rain/rain_conditional_d3.js:1210-1214 | only the highlight changes, to the named event or to none; every other field is untouched |
| ConditionalPanel.Panel.SetReducedMotion | public/js/rain/rain_conditional_d3.js:1216-1234 | an unchanged flag is a no-op; a change switches reduced motion and cancels any transition (token moved on, nothing pending), and a cycle restarted on switch-off starts from the current perspective |
| ConditionalPanel.Panel.Update | public/js/rain/rain_conditional_d3.js:1236-1260 | the probabilities are reweighted; without a reduced-motion switch the token, the pending callback and the cycle are kept; a boolean that differs from the current flag then switches reduced motion, moving the token on and cancelling the callback; the measured size is untouched |
| ConditionalPanel.NewDropOf | public/js/rain/rain_conditional_d3.js:526-553 | no drop exactly when the sampling domain is at most 1e-9 wide; otherwise a fresh drop under the given id at start + sample·width, with the hit flags of the intervals containing it, not done, on its first segment, with sorted stops and one segment more than stops |
| ConditionalPanel.NewDrop | public/js/rain/rain_conditional_d3.js:526-553 | spawnDrop's construction computes the drop the specification function describes, through buildDropStops and buildDropSegments |
| ConditionalPanel.Panel.SpawnDrop | public/js/rain/rain_conditional_d3.js:526-553 | spawning appends one fresh drop under the next id, or does nothing when the sampling domain is empty |
| ConditionalPanel.Panel.SpawnDue | public/js/rain/rain_conditional_d3.js:605-610 | the spawn loop leaves exactly the drops, next id and accumulator of the spawn rounds from the current state, stops only when the accumulator is below spawnMs or the cap is reached, changes nothing else and keeps the state valid |
| ConditionalPanel.SpawnLoop | public/js/rain/rain_conditional_d3.js:605-610 | the while loop computes the recursive spawn rounds: while a period has accumulated and the population is below the cap, place a drop under the next id and spend one period |
| ConditionalPanel.SpawnRound | public/js/rain/rain_conditional_d3.js:606-609 | one round of the loop leaves the spawn rounds' result unchanged and strictly lowers the number of whole periods left |
| ConditionalPanel.SpawnRounds | public/js/rain/rain_conditional_d3.js:605-610 | the rounds only append to the drops, and the next id rises by the number appended |
| ConditionalPanel.SpawnRoundsStop | public/js/rain/rain_conditional_d3.js:605-610 | the rounds end with less than a period left or the cap reached, spending only accumulated time and never driving it negative |
| ConditionalPanel.SpawnRoundsPlaced | public/js/rain/rain_conditional_d3.js:526-553 | the k-th appended drop is the one placed under id + k |
| ConditionalPanel.SpawnRoundsKeepLive | public/js/rain/rain_conditional_d3.js:594-622 | the rounds keep the population live with increasing ids below the next id, and within the cap |
| ConditionalPanel.SpawnRoundsNothingPlaced | public/js/rain/rain_conditional_d3.js:527-530 | when no id places a drop, the rounds leave the drops and the next id as they were |
| ConditionalPanel.SpawnedDropsFresh | public/js/rain/rain_conditional_d3.js:526-553 | every drop the rounds add is a fresh drop under the next ids at start + sample·width; an empty sampling domain adds none |
| ConditionalPanel.Panel.StepLiveDrops | public/js/rain/rain_conditional_d3.js:612-620 | every drop is stepped once and finished ones removed |
| ConditionalPanel.Panel.StepDrops | public/js/rain/rain_conditional_d3.js:594-622 | a stopped simulation is untouched; a running one records the frame time, and its drops, next id and accumulator are those of the frame outcome: the clamped delta added, the spawn rounds run, every drop stepped and finished ones removed; the state stays valid and the staged transition is kept |
| ConditionalPanel.Panel.RunFrame | public/js/rain/rain_conditional_d3.js:599-621 | a running frame records its time and leaves exactly the frame outcome's drops, next id and accumulator, keeping the state valid |
| ConditionalPanel.FrameSpawnsThenSteps | public/js/rain/rain_conditional_d3.js:599-621 | the frame outcome is the spawn rounds of the state with the clock advanced and the delta added, followed by stepping every drop |
| ConditionalPanel.FrameFromSpawned | public/js/rain/rain_conditional_d3.js:599-621 | proof helper: given what the spawn rounds of the advanced state produced, the frame outcome is those drops stepped by the delta |
| ConditionalPanel.SpawnOutcomeOfAdvanced | public/js/rain/rain_conditional_d3.js:599-611 | proof helper: advancing the clock and the accumulator leaves the drops and their placement as they were, so the spawn loop runs on the original population with the new accumulator |
| ConditionalPanel.ClockAndDropsKeepStage | public/js/rain/rain_conditional_d3.js:594-622 | proof helper: a frame touches neither the staged transition nor whether the simulation should run |
| ConditionalPanel.Panel.CycleTick | public/js/rain/rain_conditional_d3.js:658-662 | a tick of a stopped cycle changes nothing and reports nothing; otherwise the cycle index advances by one modulo the cycle length and the panel changes directly to that perspective, with nothing pending, the token moved on and the change reported under source "cycle" |
| ConditionalPanel.Panel.OnTabClick | public/js/rain/rain_conditional_d3.js:1262-1269 | a tab click reports a perspective interaction (the attribute, or universe when missing) to the host, then the perspective change if there is one, and moves the token on; a conditioned perspective outside reduced motion becomes a staged user change with the cycle stopped and one renormalize callback pending; otherwise the change is direct, nothing is pending, and the cycle restarts from the new perspective exactly when the panel should run |
| ConditionalPanel.Panel.OnTabKeydown | public/js/rain/rain_conditional_d3.js:1271-1310 | an unhandled key or no tabs changes nothing and reports nothing; otherwise the tab at the next index is clicked, with the whole new state, pending callback, cycle and reported events of a click on it |
| ConditionalPanel.Panel.OnSimStartClick | public/js/rain/rain_conditional_d3.js:1321-1328 | the start button reports a sim-start event to the host, then requests running: the timer runs exactly when motion is not reduced, the page is visible and no transition pauses it, and a restarted cycle starts from the current perspective |
| ConditionalPanel.Panel.OnSimStopClick | public/js/rain/rain_conditional_d3.js:1330-1337 | the stop button reports a sim-stop event to the host, then withdraws the request: neither the timer nor the cycle runs, and the cycle index is kept |
| ConditionalPanel.TabPerspective | public/js/rain/rain_conditional_d3.js:1263 | a missing perspective attribute falls back to "universe", which parses to the same perspective as the empty attribute |
| ConditionalPanel.Panel.Destroy | public/js/rain/rain_conditional_d3.js:1396-1414 | destroy cancels the stage callback (token moved on), stops the timer and the cycle, and leaves the drops where they are |
| EngineRules.CubeBounds | public/js/rain/rain_engine.js:90-97 | the cube is monotone on non-negative numbers, which keeps the easing within the unit interval |
| EngineRules.CubicInOut | public/js/rain/rain_engine.js:90-97 | cubicInOut of the clamped input stays in [0, 1], maps 0, 1/2 and 1 to themselves, and stays on the same side of 1/2 as its input |
| EngineRules.CubicInOutSymmetric | public/js/rain/rain_engine.js:90-97 | the easing is point-symmetric about (1/2, 1/2): ease(1 - p) = 1 - ease(p) |
| EngineRules.SampleFromCdf | public/js/rain/rain_engine.js:142-172 | an empty table returns the caller's random draw; otherwise the result is in [0, 1], and for a nondecreasing table it is the interpolated point in the bin of the first entry reaching the clamped target |
| EngineRules.ClassifyPosteriorShift | public/js/rain/rain_engine.js:1517-1526 | "same" iff the posterior moved by at most 0.03, "higher" iff it rose by more, "lower" iff it fell by more |
| EngineRules.ClassifyAntisymmetric | public/js/rain/rain_engine.js:1517-1526 | swapping prior and posterior swaps "higher" and "lower" and keeps "same" |
| EngineRules.FirstMatchingPreset | public/js/rain/rain_engine.js:283-300 | no preset key iff no preset is within 0.005 on all three values; a returned key belongs to a preset the state matches |
| EngineRules.GetMatchingPresetKey | public/js/rain/rain_engine.js:291-300 | the loop over the presets returns the key of the first one the state matches, or none |
| EngineRules.PresetsRecogniseThemselves | public/js/rain/rain_engine.js:283-300 | each preset's own values are recognised as that preset |
| EngineRules.SkipsPreset | public/js/rain/rain_engine.js:291-300 | a preset the state does not match is passed over by the search |
| EngineRules.PresetByKey | public/js/rain/rain_engine.js:1846-1850 | a key names a preset with that key, or no preset has it |
| EngineRules.ActivePresetAfterInput | public/js/rain/rain_engine.js:1646-1650 | after a manual input the highlighted preset is kept exactly when the state still matches it, otherwise cleared; it is never switched to another |
| EngineRules.IndexOf | public/js/rain/rain_engine.js:318 | the first position of the token in the list, or -1 exactly when it is absent |
| EngineRules.Without | public/js/rain/rain_engine.js:311-333 | the list with every copy of the token dropped holds exactly the other tokens |
| EngineRules.AppendWithout | public/js/rain/rain_engine.js:311-333 | dropping a token from a concatenation drops it from each part |
| EngineRules.SplitOccurrences | public/js/rain/rain_engine.js:311-333 | occurrences of a token in a concatenation add up |
| EngineRules.AbsentHasNoOccurrences | public/js/rain/rain_engine.js:311-333 | an absent token occurs zero times |
| EngineRules.NoOccurrencesMeansAbsent | public/js/rain/rain_engine.js:311-333 | a token occurring zero times is absent |
| EngineRules.OccurrenceCounted | public/js/rain/rain_engine.js:311-333 | every listed token occurs at least once |
| EngineRules.SpliceFacts | public/js/rain/rain_engine.js:325-327 | splicing out one copy of the token leaves the other tokens in order and one occurrence fewer |
| EngineRules.ToggleExcludes | public/js/rain/rain_engine.js:311-333 | removing a token leaves every other token in order and, when it was listed at most once, leaves it absent |
| EngineRules.ToggleIncludes | public/js/rain/rain_engine.js:311-333 | including a token makes it present and leaves every other token in order |
| EngineRules.ToggleDescribedByMeaning | public/js/rain/rain_engine.js:311-333 | the token is present after an include, absent after an exclude when it was listed at most once, other tokens keep their order, and the attribute is removed exactly when the list becomes empty |
| EngineRules.ToggleRoundTrip | public/js/rain/rain_engine.js:311-333 | adding an absent token and then removing it restores the original list |
| EngineRules.LockedHelpNeverEdits | public/js/rain/rain_engine.js:2 | with the page's empty locked-help id, the attribute is never edited |
| EngineRules.NextUnlockStep | public/js/rain/rain_engine.js:1788-1797 | the unlock level never decreases, is at least the requested step (1 for a falsy request), and is one of the two |
| EngineRules.UnlockNeverRelocks | public/js/rain/rain_engine.js:370-426 | a control unlocked before a setUnlockStep is still unlocked after it |
| EngineRules.FloorCost | public/js/rain/rain_engine.js:1116-1117 | a cost is floored at 0.1 and left alone above it |
| EngineRules.CostThreshold | public/js/rain/rain_engine.js:1111-1118 | the cost-mode threshold is cfp / (cfp + cfn) of the floored costs, strictly between 0 and 1 |
| EngineRules.RefreshThresholdFromCosts | public/js/rain/rain_engine.js:1111-1118 | outside cost mode nothing changes; in cost mode only the threshold changes and the decision state becomes consistent with the costs |
| EngineRules.ExpectedLosses | public/js/rain/rain_engine.js:1120-1132 | the expected losses cfp (1 - p) and cfn p each lie between 0 and their cost |
| EngineRules.WeightedCost | public/js/rain/rain_engine.js:1124-1126 | a cost weighted by a probability lies between 0 and the cost |
| EngineRules.CostThresholdMinimisesLoss | public/js/rain/rain_engine.js:1111-1132 | in cost mode the rule posterior >= threshold takes the umbrella exactly when its expected loss is no larger than leaving it |
| EngineRules.BreakEvenProduct | public/js/rain/rain_engine.js:1111-1118 | the cost threshold times cfp + cfn is cfp |
| EngineRules.BreakEvenCrossing | public/js/rain/rain_engine.js:1120-1132 | at the break-even threshold, p >= t iff a (1 - p) <= b p |
| EngineRules.ThresholdSet | public/js/rain/rain_engine.js:1871-1888 | moving the threshold slider leaves cost mode with a clamped threshold and keeps the decision state consistent |
| EngineRules.CostModeSet | public/js/rain/rain_engine.js:1892-1901 | the toggle sets cost mode; switching it on takes the cost threshold, switching it off keeps the threshold |
| EngineRules.FalsePositiveCostSet | public/js/rain/rain_engine.js:1904-1914 | the false-alarm cost is floored at 0.1, the other fields stay, and the threshold follows only in cost mode |
| EngineRules.FalseNegativeCostSet | public/js/rain/rain_engine.js:1923-1933 | the missed-rain cost is floored at 0.1, the other fields stay, and the threshold follows only in cost mode |
| EngineRules.MergeHash | public/js/rain/rain_engine.js:549-562 | no hash keeps the defaults; otherwise each field independently takes the hash value or its default, probabilities and the threshold clamped to [0, 1] and costs floored at 0.1 |
| EngineRules.InitialInputsValid | public/js/rain/rain_engine.js:536-562 | the start-up inputs are probabilities with a consistent decision state; missing hash fields keep the canonical preset and default costs |
| EngineRules.ClampStep | public/js/rain/rain_engine.js:1318 | a step is clamped to 1..4, a falsy step (0 or NaN) becomes 1 and +Infinity becomes 4 |
| EngineRules.EnabledButtonsStayInRange | public/js/rain/rain_engine.js:916-921 | from a whole step in 1..4, an enabled prev or next button moves exactly one step down or up |
| EngineRules.StepHold | public/js/rain/rain_engine.js:14-15 | every step holds for a positive time |
| EngineRules.ReplayTotalDuration | public/js/rain/rain_engine.js:1000-1003 | the cycle lasts the sum of the four holds: 3900 ms, or 1800 ms under reduced motion |
| EngineRules.StepOffsetsIncrease | public/js/rain/rain_engine.js:1005-1039 | the steps start at strictly increasing offsets, all before the end of the cycle |
| EngineRules.JumpProgress | public/js/rain/rain_engine.js:1466 | the progress (step - 1) / 3 of a jumped-to step is in [0, 1]: 0 for step 1 and 1 for step 4 |
| Engine.Cancelled | public/js/rain/rain_engine.js:1134-1169 | cancelling keeps the replay record's invariant |
| Engine.CancelDisarmsEarlierCallbacks | public/js/rain/rain_engine.js:943-963 | after a cancel nothing is pending, mode is idle, the lock is free, and every earlier callback's captured runId is below the new runId, so none of them can act |
| Engine.WithoutEntry | public/js/rain/rain_engine.js:943-963 | a fired timeout leaves the queue one shorter and adds nothing |
| Engine.TimeoutAt | public/js/rain/rain_engine.js:943-963 | a scheduled timeout is due no earlier than now and carries the runId and action it was given |
| Engine.CycleTimers | public/js/rain/rain_engine.js:1005-1039 | one cycle schedules five callbacks, all under its runId |
| Engine.CycleTimersInOrder | public/js/rain/rain_engine.js:1005-1039 | steps 2, 3 and 4 are due at the cumulative hold offsets in increasing order, and the end of the cycle at 3900 ms (1800 ms reduced) |
| Engine.CycleStartedValid | public/js/rain/rain_engine.js:1005-1039 | starting a cycle while playing keeps the replay record's invariant |
| Engine.Ticked | public/js/rain/rain_engine.js:971-978 | a progress tick changes only the progress, keeps it in [0, 1], is ignored unless its runId is current and the replay is playing, and otherwise sets the progress to the clamped elapsed fraction (now - start) / total |
| Engine.ViewForStep | public/js/rain/rain_engine.js:1316-1448 | steps 1 and 2 hide the posterior, step 4 settles the particles, resampling iff the previous step was not 3, and shows the decision; only step 3 stages the testimony perspective |
| Engine.PosteriorOf | public/js/rain/rain_model.js:89-115 | the engine's posterior is a probability |
| Engine.MatchedKeyIsPreset | public/js/rain/rain_engine.js:291-300 | a matched key names a preset |
| Engine.PlayedStepFourKeepsSamples | public/js/rain/rain_engine.js:1429-1436 | step 4 after step 3, as in the played cycle, keeps the particle samples; step 4 after a jump to 4 resamples them |
| Engine.RainEngine.constructor | public/js/rain/rain_engine.js:514-562 | start-up merges the hash over the defaults, unlocks step 1, highlights the matching preset and starts with an idle empty replay |
| Engine.RainEngine.ClearReplayTimeouts | public/js/rain/rain_engine.js:924-941 | every pending callback is dropped and the progress timer cleared; nothing else changes |
| Engine.RainEngine.ScheduleReplayTimeout | public/js/rain/rain_engine.js:943-963 | one timeout carrying the given runId is appended; nothing else changes |
| Engine.RainEngine.StartReplayProgressLoop | public/js/rain/rain_engine.js:965-989 | the loop records its start and a total of at least 1 ms, resets the bar and appends one progress tick |
| Engine.RainEngine.CancelReplay | public/js/rain/rain_engine.js:1134-1169 | the replay becomes the cancelled record; unless visuals are kept the view is cleared and, if replay held the panel, it is handed back to the user's last perspective, animated unless motion is reduced |
| Engine.RainEngine.ApplyReplayStep | public/js/rain/rain_engine.js:1316-1448 | the clamped step is stored and the view for it is set up from the previous step, the motion preference and the decision |
| Engine.RainEngine.ScheduleReplayCycle | public/js/rain/rain_engine.js:1005-1039 | a stale runId or an idle replay changes nothing; otherwise step 1 is shown and the cycle's timers are scheduled |
| Engine.RainEngine.Fire | public/js/rain/rain_engine.js:943-1039 | firing a pending callback keeps the invariant, the runId, the inputs and the preference; a progress tick is the Ticked record with view and panel control unchanged; a refused timeout is only dropped; a current one applies its step with the view for it and takes the panel over, ends the cycle with a 220 ms restart leaving view and control as they were, or restarts the cycle showing step 1 |
| Engine.RainEngine.RunTimeout | public/js/rain/rain_engine.js:1005-1039 | a current timeout's callback applies its step with that step's view and takes the panel over; while playing it finishes the cycle (view and control kept) or restarts it, and otherwise does nothing |
| Engine.RainEngine.StartReplay | public/js/rain/rain_engine.js:1450-1461 | play cancels (handing the panel back to the user's perspective when replay held it), bumps the runId once more, sets playing with the lock, shows step 1 with no step before it, takes the panel over and schedules one cycle |
| Engine.RainEngine.JumpToReplayStep | public/js/rain/rain_engine.js:1463-1469 | a jump leaves the replay idle and unlocked with nothing pending, stores the clamped step and its progress, shows that step's view with itself as the step before (so a settled step 4 resamples), hands the panel back if replay held it and takes it over again |
| Engine.RainEngine.OnPrev | public/js/rain/rain_engine.js:1994-2000 | prev jumps to the current step minus one, the current step being 1 when none is shown: idle, no timeouts, unlocked, a new runId, the jump's progress, that step's view, the panel taken over; the inputs, the preference and the user's perspective are kept |
| Engine.RainEngine.OnNext | public/js/rain/rain_engine.js:2002-2008 | next jumps to the current step plus one, the current step being 1 when none is shown: idle, no timeouts, unlocked, a new runId, the jump's progress, that step's view, the panel taken over; the inputs, the preference and the user's perspective are kept |
| Engine.RainEngine.OnEscape | public/js/rain/rain_engine.js:2017-2024 | Escape cancels a playing replay, clearing the view, releasing the panel and handing it back to the user's perspective; otherwise the replay, the view, control and the hand-back are all kept; the inputs are kept either way |
| Engine.RainEngine.OnConditionalInteraction | public/js/rain/rain_engine.js:586-594 | a perspective picked on the panel is remembered, and a playing replay is cancelled, handing the panel back to that perspective at once |
| Engine.RainEngine.OnReducedMotionChanged | public/js/rain/rain_engine.js:617-637 | the preference is stored and the lock released; a playing replay is cancelled with the view cleared, the panel released and handed back, otherwise view, control and hand-back are kept |
| Engine.RainEngine.SetUnlockStep | public/js/rain/rain_engine.js:1788-1797 | the unlock level becomes max(old, next or 1); only the inputs are written, so replay, view, control, hand-back and preference are kept |
| Engine.RainEngine.OnThresholdInput | public/js/rain/rain_engine.js:1871-1879 | threshold input cancels the replay (view cleared, panel released and handed back) and sets the clamped threshold outside cost mode |
| Engine.RainEngine.OnThresholdChange | public/js/rain/rain_engine.js:1880-1888 | threshold change sets the clamped threshold outside cost mode; only the inputs are written, so the replay and all visual state are kept |
| Engine.RainEngine.OnCostToggle | public/js/rain/rain_engine.js:1892-1901 | the cost toggle cancels the replay (view cleared, panel released and handed back) and switches cost mode |
| Engine.RainEngine.OnFalsePositiveCostInput | public/js/rain/rain_engine.js:1904-1914 | the false-alarm cost input cancels the replay (view cleared, panel released and handed back) and stores the floored cost |
| Engine.RainEngine.OnFalseNegativeCostInput | public/js/rain/rain_engine.js:1923-1933 | the missed-rain cost input cancels the replay (view cleared, panel released and handed back) and stores the floored cost |
| Engine.RainEngine.OnReset | public/js/rain/rain_engine.js:1942-1968 | reset cancels the replay (view cleared, panel released and handed back) and restores the canonical preset and the default decision state |
| Engine.RainEngine.OnPresetClick | public/js/rain/rain_engine.js:1841-1867 | a preset click cancels the replay (view cleared, panel released and handed back); a known key loads that preset and highlights it, an unknown key changes nothing else |
| Engine.RainEngine.SetState | public/js/rain/rain_engine.js:1761-1786 | the beliefs are replaced and a given preset key highlighted; only the inputs are written, so the replay, view, control and hand-back are kept |
| Engine.RainEngine.OnSliderInput | public/js/rain/rain_engine.js:1799-1806 | a slider input cancels the replay (view cleared, panel released and handed back), sets one belief, and keeps the highlighted preset only while it still matches |
| RainPreview.TargetFrom | public/js/rain/rain_preview_d3.js:348-359 | every target field is clamped into [0, 1]; no parameters give all zeros; a field already in [0, 1] is kept |
| RainPreview.Approach | public/js/rain/rain_preview_d3.js:271-275 | one smoothing step with a factor in [0, 1] lands between the current value and the target, and a value at its target stays |
| RainPreview.Smoothed | public/js/rain/rain_preview_d3.js:271-275 | smoothing keeps every current parameter in [0, 1] and leaves parameters at their targets unchanged |
| RainPreview.Boosted | public/js/rain/rain_preview_d3.js:157-161 | a pulse boost in [0, 1] multiplies a rate by a factor between 1 and 1 + w |
| RainPreview.ComputeDerived | public/js/rain/rain_preview_d3.js:145-173 | every derived quantity lies in its interpolation range (spawn rate and speed widened by the largest boost); without a boost spawn rate and speed are the plain interpolations |
| RainPreview.PulseStrength | public/js/rain/rain_preview_d3.js:366-379 | a pulse's strength is in [0, 1], at least 0.35 for a replay and 0.2 for a testimony, and the clamped evidence level otherwise |
| RainPreview.PulseDuration | public/js/rain/rain_preview_d3.js:378 | the duration is clamped to 250..450 ms, a falsy setting giving 320 ms |
| RainPreview.PulseBoostBounds | public/js/rain/rain_preview_d3.js:175-188 | once the pulse has started, its boost lies between 0 and its strength |
| RainPreview.PulseExpires | public/js/rain/rain_preview_d3.js:180-184 | an elapsed pulse gives no boost and has its strength reset |
| RainPreview.Tilt | public/js/rain/rain_preview_d3.js:203 | a drop's tilt is held in [-0.42, 0.42] |
| RainPreview.DropSpeed | public/js/rain/rain_preview_d3.js:192-195 | a new drop's speed is at least 40 |
| RainPreview.DropLength | public/js/rain/rain_preview_d3.js:196-199 | a new drop's length is at least 4 |
| RainPreview.CreateDrop | public/js/rain/rain_preview_d3.js:190-220 | a new drop takes the next id, speed at least 40, length at least 4, clamped opacity, stroke width and tilt |
| RainPreview.Advance | public/js/rain/rain_preview_d3.js:296-301 | one frame of motion keeps a drop's id, speed, opacity and stroke and keeps its tilt in range |
| RainPreview.Survivors | public/js/rain/rain_preview_d3.js:293-308 | the survivors of a frame are no more than the drops considered |
| RainPreview.SurvivorsInView | public/js/rain/rain_preview_d3.js:303-305 | every survivor is inside the kept region |
| RainPreview.SurvivorsAdvanced | public/js/rain/rain_preview_d3.js:293-308 | every survivor is the moved form of one of the drops |
| RainPreview.SurvivorsIds | public/js/rain/rain_preview_d3.js:293-308 | the filter keeps the drops in order, so increasing ids stay increasing and bounded |
| RainPreview.NewDrops | public/js/rain/rain_preview_d3.js:288-291 | creating n drops gives n drops |
| RainPreview.NewDropsIds | public/js/rain/rain_preview_d3.js:209 | new drops carry the next ids in order, and static ones are still |
| RainPreview.AppendNewDrops | public/js/rain/rain_preview_d3.js:288-291 | appending new drops keeps ids increasing and bounded by the last id handed out |
| RainPreview.FrameSeconds | public/js/rain/rain_preview_d3.js:266-269 | the frame time is clamped to [1/240, 0.08] seconds |
| RainPreview.Gain | public/js/rain/rain_preview_d3.js:281 | a frame adds a non-negative amount to the accumulator |
| RainPreview.Remainder | public/js/rain/rain_preview_d3.js:282-285 | taking out the whole part leaves a fraction in [0, 1) and a whole amount removed |
| RainPreview.Budget | public/js/rain/rain_preview_d3.js:282-286 | a frame spawns at most 20 drops and at most the whole part of the accumulator |
| RainPreview.Room | public/js/rain/rain_preview_d3.js:288-291 | spawning never pushes the drop count past maxDrops, and spawns everything when there is room |
| RainPreview.AccumulatorStaysFractional | public/js/rain/rain_preview_d3.js:281-285 | the accumulator stays in [0, 1) from frame to frame |
| RainPreview.CappedBudgetIsDropped | public/js/rain/rain_preview_d3.js:282-286 | a backlog of 25 or more spawns only 20 drops, the rest being discarded |
| RainPreview.SpawnDrops | public/js/rain/rain_preview_d3.js:288-291 | the spawn loop appends exactly the drops there is room for, with the ids after the last one |
| RainPreview.AdvanceDrops | public/js/rain/rain_preview_d3.js:293-308 | the survivor loop computes the survivors of every drop |
| RainPreview.StillDrops | public/js/rain/rain_preview_d3.js:250-254 | the snapshot loop creates the requested number of still drops with the next ids |
| RainPreview.StaticCount | public/js/rain/rain_preview_d3.js:244 | a snapshot has round(10 + 52 m) drops, between 10 and 62 |
| RainPreview.Viewport | public/js/rain/rain_preview_d3.js:118-133 | the view is at least 1 by 1, keeps a measured size of at least 1, and a missing height copies the width |
| RainPreview.Spawned | public/js/rain/rain_preview_d3.js:281-308 | spawning and advancing changes only the accumulator, the id counter and the drops |
| RainPreview.RefreshedTimer | public/js/rain/rain_preview_d3.js:312-321 | after a refresh a live preview's timer runs exactly when motion is full and the page visible, and drops and targets are untouched |
| RainPreview.StartedIdempotent | public/js/rain/rain_preview_d3.js:323-329 | starting a started timer changes nothing |
| RainPreview.SnapshotProperties | public/js/rain/rain_preview_d3.js:241-259 | a snapshot has 10 to 62 still drops with fresh ids and an empty accumulator, and keeps the timer and targets |
| RainPreview.ReducedMotionSetProperties | public/js/rain/rain_preview_d3.js:338-346 | reduced motion stops the timer and shows a snapshot; full motion restarts the timer when visible and keeps the drops |
| RainPreview.VisibilitySetProperties | public/js/rain/rain_preview_d3.js:419-425 | a visibility change keeps the drops and lets the timer run exactly when live, in full motion and visible |
| RainPreview.TargetsSetProperties | public/js/rain/rain_preview_d3.js:348-359 | new targets are clamped into [0, 1], the smoothed values are kept, and only reduced motion redraws the snapshot |
| RainPreview.PulsedProperties | public/js/rain/rain_preview_d3.js:361-380 | under reduced motion a pulse does nothing; otherwise it starts now with a clamped duration and its kind's strength |
| RainPreview.ResizedProperties | public/js/rain/rain_preview_d3.js:404-409 | a resize sets the measured view and keeps the drops outside reduced motion |
| RainPreview.DestroyedProperties | public/js/rain/rain_preview_d3.js:382-402 | destroy stops the timer, empties the drops and is idempotent |
| RainPreview.TickedInactive | public/js/rain/rain_preview_d3.js:262-264 | a frame after destroy or under reduced motion changes nothing |
| RainPreview.AfterFrameProperties | public/js/rain/rain_preview_d3.js:281-308 | after a frame every drop is in view, ids increase up to the last one handed out, and at most n drops were added |
| RainPreview.SpawnedProperties | public/js/rain/rain_preview_d3.js:281-308 | a frame's spawning keeps the state's invariant, hands out at most 20 ids and never goes past maxDrops |
| RainPreview.TickedProperties | public/js/rain/rain_preview_d3.js:261-310 | a live frame keeps the invariant and the timer, records its time, keeps every drop in view, spawns at most 20 drops and stays within maxDrops |
| RainPreview.Preview.constructor | public/js/rain/rain_preview_d3.js:62-431 | init measures the view, starts with no drops and runs the timer exactly when the page is visible |
| RainPreview.Preview.StartTimer | public/js/rain/rain_preview_d3.js:323-329 | the timer starts only when live, in full motion, visible and not already running |
| RainPreview.Preview.StopTimer | public/js/rain/rain_preview_d3.js:331-336 | the timer is stopped |
| RainPreview.Preview.RefreshTimerState | public/js/rain/rain_preview_d3.js:312-321 | the timer is refreshed from the destroyed, motion and visibility flags |
| RainPreview.Preview.RenderStaticSnapshot | public/js/rain/rain_preview_d3.js:241-259 | the drops are replaced by the static snapshot |
| RainPreview.Preview.SetPageVisible | public/js/rain/rain_preview_d3.js:419-425 | the visibility handler keeps the invariant and refreshes the timer |
| RainPreview.Preview.SetReducedMotion | public/js/rain/rain_preview_d3.js:338-346 | the motion switch keeps the invariant and either snapshots or refreshes the timer |
| RainPreview.Preview.SetTargetParams | public/js/rain/rain_preview_d3.js:348-359 | the targets are replaced by their clamped values, keeping the invariant |
| RainPreview.Preview.Pulse | public/js/rain/rain_preview_d3.js:361-380 | a pulse keeps the invariant and starts a new pulse outside reduced motion |
| RainPreview.Preview.CurrentPulseBoost | public/js/rain/rain_preview_d3.js:175-188 | returns the pulse's decayed boost and resets an elapsed pulse |
| RainPreview.Preview.TickFrame | public/js/rain/rain_preview_d3.js:261-310 | one frame keeps the invariant and moves the state as the frame function says |
| RainPreview.Preview.SpawnAndAdvance | public/js/rain/rain_preview_d3.js:281-308 | the spawn and survivor loops produce the frame's drops, accumulator and ids |
| RainPreview.Preview.HandleResize | public/js/rain/rain_preview_d3.js:404-409 | a resize keeps the invariant and re-measures the view |
| RainPreview.Preview.Destroy | public/js/rain/rain_preview_d3.js:382-402 | destroy keeps the invariant and is idempotent |

Two facts about the code are worth stating on their own. First, the
canonical preset (prior 0.30, hit rate 0.85, false-alarm rate 0.10) gives an
evidence of 0.85 · 0.30 + 0.10 · 0.70 = 0.325 and a posterior of
0.255 / 0.325 ≈ 0.785 (`RainModel.CanonicalEvidence`,
`RainModel.CanonicalBayesUpdate`). Second, step 4 of the replay resamples the
particles unless the previous step was 3. A played cycle reaches step 4 from
step 3 and keeps its samples. A jump stores the target step first, so a jump
to step 4 resamples (`Engine.PlayedStepFourKeepsSamples`,
`Engine.RainEngine.JumpToReplayStep`; `Engine.RainEngine.Fire` states the
view each step's timeout sets up from the step shown before it).

## Left out

- Drawing: SVG and DOM output, d3 selections, scales, axes and transitions, CSS class and attribute toggles, text readouts, `toFixed` and percent formatting, and screen-reader announcements. The model keeps the numbers these are drawn from.
- Logarithms, exponentials, powers and sines (`bernoulliKL`, the Beta density, `Math.pow(m, 1.6)`, the entropy in bits): they are parameters, and the properties hold for any values they return.
- `Math.random`, `performance.now()` and `Date.now()` are parameters: a draw function indexed by draw number, and a `now` argument.
- Browser scheduling: `requestAnimationFrame`, d3 timers, `setTimeout`, `setInterval`, `ResizeObserver`, `IntersectionObserver` and `visibilitychange` are not modelled as such. Pending callbacks are an explicit queue, and the environment chooses which entry fires next (`Engine.RainEngine.Fire`, `ConditionalPanel.Panel.FireStageTimer`). Real-time ordering of the due times is not enforced.
- URL and clipboard I/O: `getInputFromHash`, `parseHashNumber`, `writeHash`, `copyShareLink` and `fallbackCopyText`. Only the merge of an already parsed hash over the defaults is modelled (`EngineRules.MergeHash`).
- Engine prediction feedback: the prediction buttons, `markPredictionPending` and `resolvePrediction`. Only `classifyPosteriorShift` is modelled. A prediction click also cancels the replay, which is the same transition as the other cancelling handlers.
- Engine particles: `createParticles`, `samplePosteriorTargets`, `buildBetaCdf`, `updateParticles` and the vanilla animation loop. The replay's step view records whether particles stay, settle or are resampled. The sampling algorithm itself is modelled on the Bayes panel's particle pool (`BayesPanel.ParticlePool`) and by `EngineRules.SampleFromCdf`.
- The engine's glue to the rain preview (`deriveRainPreviewSignals`, `certaintyLabelFromUncertainty`, `updateRainPreview`, `pulseRainPreview`), `debounce`, and the animation-frame input render (`scheduleInputRender`, `cancelScheduledInputRender`): they produce display values or defer rendering and change no modelled state.
- Engine.RainEngine.OnSliderInput also stands for the slider `change` handler (`onSliderCommit`). Its effect on the modelled state is the same; it additionally renders, resolves the prediction and pulses the preview.
- Engine.RainEngine.SetState: requires beliefs in [0, 1] and omits the `clamp01` calls, which are the identity on the preset values its callers pass.
- ConditionalPanel.Panel.OnTabClick: the host's onUserInteraction callback runs before the cycle stops and may call back into the panel (the engine hands the panel back with a direct setPerspective); the model returns the events the host would receive, in order, and leaves the host out, so the contract describes a host that does not re-enter. The same holds for the onPerspectiveChange report of SetPerspective, and for OnTabKeydown, CycleTick, OnSimStartClick and OnSimStopClick.
- Engine.RainEngine.OnConditionalInteraction: the interaction detail is reduced to the perspective it carries, if any; the render after the cancel only draws.
- Engine.RainEngine.OnPresetClick: the preset lookup is over the three preset keys. A key inherited from `Object.prototype` is not modelled.
- Engine.RainEngine.constructor: the hash fields arrive already parsed, as optional finite numbers and an optional boolean.
- EngineRules.NextUnlockStep: the argument is a finite number, as at both call sites, so the only falsy value is 0.
- The `beforeunload` handler, which destroys the preview and the panel; those destroys are modelled on their own objects.
- `round` in the probability model (rain_model.js:174-177) is a display helper and is not modelled.
- EpZero.GameMetrics: the entropy in bits (`log2`) is not part of this model; the three counts are.
- EpZero: a question key inherited from `Object.prototype`, and a `null` constraint list element, are not modelled; constraints are records with a key and an answer string.
- FrequencyBars: `render` and `destroy` only touch the DOM and are not modelled. The posterior expression inside `render` is (`FrequencyBars.FrequencyPosterior`).
- BayesPanel.InvertQuantile, BayesPanel.ComputeEti and BayesPanel.ComputeHdi: require a non-empty curve. Every curve comes from `buildCurve`, which has at least 16 points; on an empty array the source reads `undefined`.
- BayesPanel.ComputeHdi: the result is proved to be the whole grid or a window on the grid holding at least the requested mass; that it is the narrowest such window is not proved.
- BayesPanel.ParticlePool: an infinite or fractional `particleCount` (a `RangeError` from `new Array`) is not modelled; the count is a natural number.
- BayesPanel.ParticlePool.PlayDriftToPosterior: the animated branch leaves each particle at its old position with the new target. The transition's end, which moves each particle to its target, is the separate `BayesPanel.ParticlePool.Settle` method. Initial draws and later draws use separate random streams.
- Particles and drops are values in a sequence, not shared objects: aliasing between them and the drawing code is not modelled (`stepOneDrop` returns the updated drop).
- The no-op controllers that `init` returns when the mount element or d3 is missing, and listener removal in `destroy`, are not modelled.
- RainPreview.Preview.constructor: a non-finite initial `pulseMs` is read as a duration of 0. This is unobservable, because the initial strength is 0. Measured sizes are finite numbers, and `maxDrops` is a natural number.
- PriorSlider.PriorSliderExplorable.OnInput: requires the value to lie in the slider's range [0.01, 0.99], which the range input guarantees.
- ConditionalPanel: the d3 ease is an abstract map to be applied at drawing time; the drop simulator is modelled up to the positions it produces.
- ConditionalPanel.Panel.StepDrops: the guards on a missing `state.dimensions` (in `stepDrops`) and missing `state.intervals` (in `spawnDrop`) are not modelled. Both are set by the synchronous first `renderAll` of `init`, before any frame can run, and are never cleared; the model computes them from the measured size and the probabilities.
