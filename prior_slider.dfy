/*
 * The prior-slider explorable: a range input for the prior P(rain) and a
 * readout of how far the friend's testimony moves belief, in percentage
 * points. The likelihoods are fixed at the canonical 0.85 / 0.10.
 *
 * The widget computes Bayes' rule itself, without the probability model's
 * zero-evidence fallback; JavaScript's division by zero is modelled as NaN or
 * an infinity. Writing the readout text into the DOM is not modelled: the
 * widget's readouts are the numbers before formatting.
 */
module PriorSlider {
  import opened Numeric
  import RainModel

  /** The constructor's values. */
  const InitialPrior: real := 0.30
  const TGivenR: real := 0.85
  const TGivenNotR: real := 0.10

  /** The range input's bounds. */
  const SliderMin: real := 0.01
  const SliderMax: real := 0.99

  predicate InSliderRange(p: real) {
    SliderMin <= p <= SliderMax
  }

  /** a / b with JavaScript's results for a zero divisor. */
  function JsDivide(a: real, b: real): (r: Num)
    ensures b != 0.0 ==> r == Finite(a / b)
    ensures b == 0.0 ==> !r.Finite?
  {
    if b != 0.0 then Finite(a / b)
    else if a == 0.0 then NaN
    else Infinity(a > 0.0)
  }

  /** P(T) = P(T|R) P(R) + P(T|not R) (1 - P(R)), with no clamping. */
  function SliderEvidence(prior: real, tGivenR: real, tGivenNotR: real): real {
    tGivenR * prior + tGivenNotR * (1.0 - prior)
  }

  /**
   * calculateShift: (posterior - prior) * 100, the posterior being
   * P(T|R) P(R) / P(T) divided without a guard; a non-finite posterior gives
   * a non-finite shift.
   */
  function CalculateShift(prior: real, tGivenR: real, tGivenNotR: real): (shift: Num)
    ensures SliderEvidence(prior, tGivenR, tGivenNotR) != 0.0 <==> shift.Finite?
  {
    match JsDivide(tGivenR * prior, SliderEvidence(prior, tGivenR, tGivenNotR))
    case Finite(posterior) => Finite((posterior - prior) * 100.0)
    case NaN => NaN
    case Infinity(positive) => Infinity(positive)
  }

  /** Over the slider's range the canonical evidence is at least 0.1075. */
  lemma SliderEvidenceBounds(prior: real)
    requires InSliderRange(prior)
    ensures SliderEvidence(prior, TGivenR, TGivenNotR) == 0.1 + 0.75 * prior
    ensures SliderEvidence(prior, TGivenR, TGivenNotR) >= 0.1075
    ensures SliderEvidence(prior, TGivenR, TGivenNotR) == RainModel.Evidence(prior, TGivenR, TGivenNotR)
  {
  }

  /**
   * On the slider's range the shift is finite and prior + shift / 100 is the
   * probability model's posterior for the same prior and likelihoods.
   */
  lemma ShiftMatchesPosterior(prior: real)
    requires InSliderRange(prior)
    ensures CalculateShift(prior, TGivenR, TGivenNotR).Finite?
    ensures prior + CalculateShift(prior, TGivenR, TGivenNotR).value / 100.0 == RainModel.Posterior(prior, TGivenR, TGivenNotR)
  {
    SliderEvidenceBounds(prior);
    var e := SliderEvidence(prior, TGivenR, TGivenNotR);
    var posterior := TGivenR * prior / e;
    assert CalculateShift(prior, TGivenR, TGivenNotR) == Finite((posterior - prior) * 100.0);
    assert RainModel.Posterior(prior, TGivenR, TGivenNotR) == posterior;
  }

  /**
   * When the friend says "rain" more often on rainy days than on dry ones,
   * the testimony raises the belief: the shift is positive for every prior
   * strictly between 0 and 1, and it is 0 when the two likelihoods agree.
   */
  lemma ShiftSign(prior: real, tGivenR: real, tGivenNotR: real)
    requires 0.0 < prior < 1.0 && InUnit(tGivenR) && InUnit(tGivenNotR)
    requires SliderEvidence(prior, tGivenR, tGivenNotR) > 0.0
    ensures tGivenR > tGivenNotR ==> CalculateShift(prior, tGivenR, tGivenNotR).value > 0.0
    ensures tGivenR == tGivenNotR ==> CalculateShift(prior, tGivenR, tGivenNotR).value == 0.0
    ensures tGivenR < tGivenNotR ==> CalculateShift(prior, tGivenR, tGivenNotR).value < 0.0
  {
    var e := SliderEvidence(prior, tGivenR, tGivenNotR);
    // posterior - prior = prior (1 - prior) (tGivenR - tGivenNotR) / e
    var gap := (tGivenR - tGivenNotR) * (1.0 - prior);
    ProductSign(tGivenR - tGivenNotR, 1.0 - prior);
    assert tGivenR * prior - prior * e == prior * gap;
    var posterior := tGivenR * prior / e;
    QuotientDifference(tGivenR * prior, prior, e);
    var d := prior * gap / e;
    SignOfScaledQuotient(prior, gap, e);
    assert posterior - prior == d;
    assert CalculateShift(prior, tGivenR, tGivenNotR) == Finite(d * 100.0);
  }

  lemma ProductSign(a: real, b: real)
    requires b > 0.0
    ensures a > 0.0 ==> a * b > 0.0
    ensures a == 0.0 ==> a * b == 0.0
    ensures a < 0.0 ==> a * b < 0.0
  {
    if a < 0.0 {
      assert (-a) * b > 0.0;
    }
  }

  lemma QuotientDifference(a: real, p: real, e: real)
    requires e > 0.0
    ensures a / e - p == (a - p * e) / e
  {
  }

  lemma SignOfScaledQuotient(p: real, g: real, e: real)
    requires p > 0.0 && e > 0.0
    ensures g > 0.0 ==> p * g / e > 0.0
    ensures g == 0.0 ==> p * g / e == 0.0
    ensures g < 0.0 ==> p * g / e < 0.0
  {
    if g > 0.0 {
      assert p * g > 0.0;
    } else if g < 0.0 {
      assert p * (-g) > 0.0;
    }
  }

  /** The readout the widget starts with: a prior of 30% moved by (255/325 - 0.3) * 100 points. */
  lemma CanonicalShift()
    ensures CalculateShift(InitialPrior, TGivenR, TGivenNotR) == Finite((255.0 / 325.0 - 0.3) * 100.0)
  {
    assert SliderEvidence(InitialPrior, TGivenR, TGivenNotR) == 0.325;
    assert TGivenR * InitialPrior / 0.325 == 255.0 / 325.0;
  }

  /**
   * calculateShift has no zero-evidence guard: with a prior of 0 and a friend
   * who never raises a false alarm it divides 0 by 0 ...
   */
  lemma ShiftOfZeroEvidence()
    ensures CalculateShift(0.0, TGivenR, 0.0) == NaN
  {
    assert SliderEvidence(0.0, TGivenR, 0.0) == 0.0;
    assert JsDivide(TGivenR * 0.0, 0.0) == NaN;
  }

  /** ... where the probability model falls back to the prior. */
  lemma PosteriorOfZeroEvidence()
    ensures RainModel.Posterior(0.0, TGivenR, 0.0) == 0.0
  {
    assert RainModel.Evidence(0.0, TGivenR, 0.0) == 0.0 by {
      assert ClampUnit(0.0) == 0.0;
    }
  }

  /** The PriorSliderExplorable object: its fields and the two readouts it renders. */
  class PriorSliderExplorable {
    var prior: real
    var tGivenR: real
    var tGivenNotR: real
    /** The prior in percent, before toFixed(0). */
    var priorReadout: real
    /** The shift in percentage points, before toFixed(1). */
    var shiftReadout: Num

    /** The likelihoods never change, the prior comes from the slider, and the readouts show the current prior. */
    ghost predicate Valid()
      reads this
    {
      tGivenR == TGivenR && tGivenNotR == TGivenNotR && InSliderRange(prior)
      && priorReadout == prior * 100.0
      && shiftReadout == CalculateShift(prior, tGivenR, tGivenNotR)
    }

    /** The constructor and its first render. */
    constructor ()
      ensures Valid() && prior == InitialPrior
      ensures shiftReadout == Finite((255.0 / 325.0 - 0.3) * 100.0)
    {
      prior := InitialPrior;
      tGivenR := TGivenR;
      tGivenNotR := TGivenNotR;
      priorReadout := InitialPrior * 100.0;
      shiftReadout := CalculateShift(InitialPrior, TGivenR, TGivenNotR);
      CanonicalShift();
    }

    /** update: recompute both readouts from the current fields. */
    method Update()
      modifies this
      ensures prior == old(prior) && tGivenR == old(tGivenR) && tGivenNotR == old(tGivenNotR)
      ensures priorReadout == prior * 100.0 && shiftReadout == CalculateShift(prior, tGivenR, tGivenNotR)
    {
      priorReadout := prior * 100.0;
      shiftReadout := CalculateShift(prior, tGivenR, tGivenNotR);
    }

    /**
     * The slider's input handler: take the new prior, then update. The range
     * input only reports values between its min and max.
     */
    method OnInput(value: real)
      requires Valid() && InSliderRange(value)
      modifies this
      ensures Valid() && prior == value
      ensures shiftReadout.Finite? && prior + shiftReadout.value / 100.0 == RainModel.Posterior(value, TGivenR, TGivenNotR)
    {
      prior := value;
      Update();
      ShiftMatchesPosterior(value);
    }
  }
}
