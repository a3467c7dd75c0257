/*
 * The natural-frequency bars: the rain and testimony probabilities turned
 * into counts of days out of a population of 1000, and the posterior read
 * off those counts as true alarms over all alarms.
 *
 * The component keeps its last tree in a closure variable that `update` and
 * `init` reassign; that closure is the class below. Rendering the bars is
 * DOM work and is not part of this model.
 */
module FrequencyBars {
  import opened Numeric
  import RainModel

  /** DEFAULTS.populationSize */
  const Population: int := 1000

  /** The counts of one imagined population of days. */
  datatype Tree = Tree(
    total: int,
    rains: int, notRains: int,
    truePositives: int, falseNegatives: int,
    falsePositives: int, trueNegatives: int)

  /** Every branch of the tree splits its parent exactly. */
  predicate Splits(t: Tree) {
    t.rains + t.notRains == t.total
    && t.truePositives + t.falseNegatives == t.rains
    && t.falsePositives + t.trueNegatives == t.notRains
  }

  predicate NonNegative(t: Tree) {
    t.rains >= 0 && t.notRains >= 0
    && t.truePositives >= 0 && t.falseNegatives >= 0
    && t.falsePositives >= 0 && t.trueNegatives >= 0
  }

  /**
   * calculateTree: rains = round(population * prior), the rest of the days are
   * dry; the friend's true alarms are round(rains * hitRate) and false alarms
   * round(notRains * falseAlarmRate), and the misses and quiet dry days are
   * what is left of each branch.
   */
  function CalculateTree(population: int, prior: real, hitRate: real, falseAlarmRate: real): (t: Tree)
    ensures Splits(t) && t.total == population
    ensures t.rains == Round(population as real * prior)
    ensures t.truePositives == Round(t.rains as real * hitRate)
    ensures t.falsePositives == Round(t.notRains as real * falseAlarmRate)
  {
    var rains := Round(population as real * prior);
    var notRains := population - rains;
    var truePositives := Round(rains as real * hitRate);
    var falsePositives := Round(notRains as real * falseAlarmRate);
    Tree(population, rains, notRains,
         truePositives, rains - truePositives,
         falsePositives, notRains - falsePositives)
  }

  /** Rounding a number that lies between two integers stays between them. */
  lemma RoundBetween(x: real, lo: int, hi: int)
    requires lo as real <= x <= hi as real
    ensures lo <= Round(x) <= hi
  {
  }

  /** round(n * p) of a non-negative count and a probability lies in [0, n]. */
  lemma RoundedShare(n: int, p: real)
    requires n >= 0 && InUnit(p)
    ensures 0 <= Round(n as real * p) <= n
  {
    ScaleUnitBounds(n as real, p);
    RoundBetween(n as real * p, 0, n);
  }

  /** With probabilities in [0, 1] every count is a whole number of days between 0 and the population. */
  lemma TreeCountsNonNegative(population: int, prior: real, hitRate: real, falseAlarmRate: real)
    requires population >= 0 && InUnit(prior) && InUnit(hitRate) && InUnit(falseAlarmRate)
    ensures NonNegative(CalculateTree(population, prior, hitRate, falseAlarmRate))
  {
    var t := CalculateTree(population, prior, hitRate, falseAlarmRate);
    RoundedShare(population, prior);
    RoundedShare(t.rains, hitRate);
    RoundedShare(t.notRains, falseAlarmRate);
  }

  /**
   * The posterior shown under the bars: true alarms over all alarms, and 0
   * when the friend never raises the alarm.
   */
  function FrequencyPosterior(t: Tree): (r: real)
    ensures t.truePositives + t.falsePositives == 0 ==> r == 0.0
    ensures t.truePositives + t.falsePositives > 0 ==>
      r * (t.truePositives + t.falsePositives) as real == t.truePositives as real
    ensures t.truePositives >= 0 && t.falsePositives >= 0 ==> InUnit(r)
  {
    var alarms := t.truePositives + t.falsePositives;
    if alarms > 0 then t.truePositives as real / alarms as real else 0.0
  }

  /**
   * The canonical example the component is written around: prior 0.3, hit
   * rate 0.85, false-alarm rate 0.10 give 300/700 days, 255/45 and 70/630,
   * and a posterior of 255/325.
   */
  lemma CanonicalTree()
    ensures CalculateTree(Population, 0.3, 0.85, 0.10) == Tree(1000, 300, 700, 255, 45, 70, 630)
    ensures FrequencyPosterior(CalculateTree(Population, 0.3, 0.85, 0.10)) == 255.0 / 325.0
  {
    assert Round(300.0) == 300;
    assert Round(255.0) == 255;
    assert Round(70.0) == 70;
  }

  /**
   * The fallback differs from the probability model's: when it always rains and
   * the friend never says so there are no alarms, the bars show 0, and Bayes'
   * rule (whose evidence is then 0) keeps the prior of 1.
   */
  lemma FallbackDiffersFromRainModel(falseAlarmRate: real)
    requires InUnit(falseAlarmRate)
    ensures FrequencyPosterior(CalculateTree(Population, 1.0, 0.0, falseAlarmRate)) == 0.0
    ensures RainModel.Posterior(1.0, 0.0, falseAlarmRate) == 1.0
  {
    var t := CalculateTree(Population, 1.0, 0.0, falseAlarmRate);
    assert Round(1000.0) == 1000;
    assert Round(0.0) == 0;
    assert t.notRains == 0;
    assert RainModel.Evidence(1.0, 0.0, falseAlarmRate) == 0.0;
  }

  /** The options `init` reads; a missing number is NaN, which is falsy. */
  datatype InitOptions = InitOptions(prior: Num, hitRate: Num, falseAlarmRate: Num, reducedMotion: bool)

  /** `opts || {}`: no options object reads as every option missing. */
  function OptionsOrEmpty(opts: Option<InitOptions>): (o: InitOptions)
    ensures opts.Some? ==> o == opts.value
    ensures opts.None? ==> !Truthy(o.prior) && !Truthy(o.hitRate) && !Truthy(o.falseAlarmRate) && !o.reducedMotion
  {
    if opts.Some? then opts.value else InitOptions(NaN, NaN, NaN, false)
  }

  /** The component returned by createFrequencyBars. */
  class FrequencyBarsView {
    var data: Option<Tree>
    var reducedMotion: bool

    /** Whatever tree is shown came from probabilities in [0, 1] over the population. */
    ghost predicate Valid()
      reads this
    {
      data.Some? ==> Splits(data.value) && NonNegative(data.value) && data.value.total == Population
    }

    constructor ()
      ensures Valid() && data.None? && !reducedMotion
    {
      data := None;
      reducedMotion := false;
    }

    /** update: clamp each argument to [0, 1] and rebuild the tree for 1000 days. */
    method Update(prior: Num, hitRate: Num, falseAlarmRate: Num)
      modifies this
      ensures Valid()
      ensures data == Some(CalculateTree(Population, Clamp01(prior), Clamp01(hitRate), Clamp01(falseAlarmRate)))
      ensures reducedMotion == old(reducedMotion)
    {
      var p, h, f := Clamp01(prior), Clamp01(hitRate), Clamp01(falseAlarmRate);
      var t := CalculateTree(Population, p, h, f);
      TreeCountsNonNegative(Population, p, h, f);
      data := Some(t);
    }

    /** init: a falsy option (missing, NaN or an explicit 0) takes its default 0.3 / 0.85 / 0.15. */
    method Init(opts: Option<InitOptions>)
      modifies this
      ensures Valid()
      ensures var o := OptionsOrEmpty(opts);
        reducedMotion == o.reducedMotion
        && data == Some(CalculateTree(Population,
             Clamp01(OrDefault(o.prior, 0.3)),
             Clamp01(OrDefault(o.hitRate, 0.85)),
             Clamp01(OrDefault(o.falseAlarmRate, 0.15))))
    {
      var o := OptionsOrEmpty(opts);
      reducedMotion := o.reducedMotion;
      Update(OrDefault(o.prior, 0.3), OrDefault(o.hitRate, 0.85), OrDefault(o.falseAlarmRate, 0.15));
    }

    method SetReducedMotion(value: bool)
      modifies this
      ensures reducedMotion == value && data == old(data)
    {
      reducedMotion := value;
    }
  }

  /** An explicit 0 is falsy, so init replaces it by the default rather than keeping it. */
  lemma InitReplacesZero()
    ensures Clamp01(OrDefault(Finite(0.0), 0.3)) == 0.3
    ensures Clamp01(OrDefault(Finite(0.0), 0.85)) == 0.85
    ensures Clamp01(OrDefault(Finite(0.0), 0.15)) == 0.15
  {
  }
}
