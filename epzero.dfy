/*
 * The "guess the number" elimination game: a universe 1..N, yes/no answers
 * to questions from a fixed bank, immutable apply and undo of an answer, and
 * the counts shown to the player.
 *
 * Game states are values (every operation returns a fresh state). The three
 * places that loop (filling the universe, the trial-division prime test, and
 * the per-number check of every constraint inside the filter) are methods
 * proved against the functions the state operations use.
 */
module EpZero {
  import opened Numeric

  /** clampInt(value, min, max): Math.round, then clamp; a non-finite value gives `min`. */
  function ClampInt(value: Num, min: int, max: int): (r: int)
    ensures !value.Finite? ==> r == min
    ensures min <= max ==> min <= r <= max
    ensures value.Finite? && min <= Round(value.value) <= max ==> r == Round(value.value)
    ensures value.Finite? && Round(value.value) < min ==> r == min
    ensures value.Finite? && Round(value.value) > max && min <= max ==> r == max
  {
    match value
    case Finite(v) =>
      var n := Round(v);
      if n < min then min else if n > max then max else n
    case _ => min
  }

  /** An integer already in range is left alone, so clamping twice changes nothing. */
  lemma ClampIntOfWhole(n: int, min: int, max: int)
    requires min <= n <= max
    ensures ClampInt(Finite(n as real), min, max) == n
  {
    assert Round(n as real) == n;
  }

  // ---------------------------------------------------------------- questions

  datatype Test = GreaterThan50 | Odd | Prime | MultipleOf3 | Band(lo: int, hi: int)

  datatype Question = Question(key: string, title: string, test: Test)

  predicate Divides(d: int, n: int)
    requires d != 0
  {
    n % d == 0
  }

  /**
   * The prime test as the bank states it: no trial divisor up to the square
   * root (every such divisor is also at most n, which bounds the quantifier).
   */
  predicate IsPrime(n: int) {
    n >= 2 && forall d :: 2 <= d <= n && d * d <= n ==> !Divides(d, n)
  }

  /**
   * What each question accepts. The source's `%` truncates toward zero, but
   * only its being zero is ever asked, which truncating and Euclidean
   * remainders agree on.
   */
  predicate Holds(t: Test, n: int) {
    match t
    case GreaterThan50 => n > 50
    case Odd => n % 2 != 0
    case Prime => IsPrime(n)
    case MultipleOf3 => n % 3 == 0
    case Band(lo, hi) => n >= lo && n <= hi
  }

  const Band1 := Question("band_1_25", "number in [1, 25]", Band(1, 25))
  const Band2 := Question("band_26_50", "number in [26, 50]", Band(26, 50))
  const Band3 := Question("band_51_75", "number in [51, 75]", Band(51, 75))
  const Band4 := Question("band_76_100", "number in [76, 100]", Band(76, 100))

  /** The eight keys of QUESTION_BANK. */
  const QuestionKeys: set<string> :=
    {"gt50", "odd", "prime", "multiple3", "band_1_25", "band_26_50", "band_51_75", "band_76_100"}

  /** QUESTION_BANK looked up by key; an unknown key has no question. */
  function QuestionByKey(key: string): (q: Option<Question>)
    ensures q.Some? ==> q.value.key == key
    ensures q.Some? <==> key in QuestionKeys
  {
    if key == "gt50" then Some(Question("gt50", "number > 50", GreaterThan50))
    else if key == "odd" then Some(Question("odd", "number is odd", Odd))
    else if key == "prime" then Some(Question("prime", "number is prime", Prime))
    else if key == "multiple3" then Some(Question("multiple3", "number is a multiple of 3", MultipleOf3))
    else if key == Band1.key then Some(Band1)
    else if key == Band2.key then Some(Band2)
    else if key == Band3.key then Some(Band3)
    else if key == Band4.key then Some(Band4)
    else None
  }

  /** The prime question's trial division, stopping at the first divisor. */
  method PrimeTest(n: int) returns (b: bool)
    ensures b == IsPrime(n)
  {
    if n < 2 {
      return false;
    }
    var i := 2;
    while i * i <= n
      invariant 2 <= i
      invariant forall d :: 2 <= d < i ==> !Divides(d, n)
      decreases n - i
    {
      if n % i == 0 {
        assert Divides(i, n) && i * i <= n;
        return false;
      }
      assert i < i * i;
      i := i + 1;
    }
    forall d | 2 <= d <= n && d * d <= n
      ensures !Divides(d, n)
    {
      if d >= i {
        MulMonotone(i, d);
      }
    }
    return true;
  }

  lemma MulMonotone(a: int, b: int)
    requires 0 <= a <= b
    ensures a * a <= b * b
  {
    assert a * a <= a * b;
  }

  /** Trial division up to the square root decides primality: no divisor strictly between 1 and n. */
  lemma PrimeTestMeansPrime(n: int)
    ensures IsPrime(n) <==> n >= 2 && forall d :: 2 <= d < n ==> !Divides(d, n)
  {
    if IsPrime(n) {
      forall d | 2 <= d < n
        ensures !Divides(d, n)
      {
        NoLargeDivisor(n, d);
      }
    }
    if n >= 2 && forall d :: 2 <= d < n ==> !Divides(d, n) {
      forall d | 2 <= d <= n && d * d <= n
        ensures !Divides(d, n)
      {
        MulLe(d, 2, d);
      }
    }
  }

  /** A divisor above the square root has a cofactor below it, which the test would have found. */
  lemma NoLargeDivisor(n: int, d: int)
    requires IsPrime(n) && 2 <= d < n
    ensures !Divides(d, n)
  {
    if Divides(d, n) && d * d > n {
      var e := n / d;
      assert n == d * e;
      Cofactor(n, d, e);
      ModUnique(n, e, d, 0);
      assert Divides(e, n);
    }
  }

  lemma Cofactor(n: int, d: int, e: int)
    requires n == d * e && 2 <= d < n && d * d > n
    ensures 2 <= e < d && e * e <= n
  {
    if e <= 1 {
      MulLe(d, e, 1);
    }
    if e >= d {
      MulLe(d, d, e);
    }
    MulLe(e, e, d);
  }

  lemma MulLe(a: int, b: int, c: int)
    requires a >= 0 && b <= c
    ensures a * b <= a * c
  {
    assert a * c - a * b == a * (c - b);
  }

  /** The Euclidean remainder is the only remainder in [0, e). */
  lemma ModUnique(n: int, e: int, q: int, r: int)
    requires e > 0 && 0 <= r < e && n == e * q + r
    ensures n % e == r
  {
    var q0, r0 := n / e, n % e;
    assert e * (q - q0) == r0 - r;
    if q > q0 {
      MulLe(e, 1, q - q0);
    } else if q < q0 {
      MulLe(e, 1, q0 - q);
    }
  }

  /** The four band questions split 1..100: each number falls in exactly one band. */
  lemma BandsPartition(n: int)
    ensures 1 <= n <= 100 <==>
      Holds(Band1.test, n) || Holds(Band2.test, n) || Holds(Band3.test, n) || Holds(Band4.test, n)
    ensures !(Holds(Band1.test, n) && Holds(Band2.test, n))
    ensures !(Holds(Band2.test, n) && Holds(Band3.test, n))
    ensures !(Holds(Band3.test, n) && Holds(Band4.test, n))
    ensures !(Holds(Band1.test, n) && Holds(Band3.test, n))
    ensures !(Holds(Band1.test, n) && Holds(Band4.test, n))
    ensures !(Holds(Band2.test, n) && Holds(Band4.test, n))
  {
  }

  /** `q.test(n)`, running the prime question's loop when that is the question. */
  method RunTest(t: Test, n: int) returns (r: bool)
    ensures r == Holds(t, n)
  {
    if t == Prime {
      r := PrimeTest(n);
    } else {
      r := Holds(t, n);
    }
  }

  // -------------------------------------------------------------- constraints

  /** A player's answer to a question; the answer is whatever string was given. */
  datatype Constraint = Constraint(questionKey: string, answer: string)

  /** Every answer other than "no" is recorded as "yes". */
  function NormalAnswer(answer: string): (r: string)
    ensures r == "no" || r == "yes"
    ensures r == "no" <==> answer == "no"
  {
    if answer == "no" then "no" else "yes"
  }

  function Normalized(c: Constraint): (r: Constraint)
    ensures r.questionKey == c.questionKey && r.answer == NormalAnswer(c.answer)
  {
    Constraint(c.questionKey, NormalAnswer(c.answer))
  }

  function NormalizedAll(cs: seq<Constraint>): (r: seq<Constraint>)
    ensures |r| == |cs|
    ensures forall i :: 0 <= i < |cs| ==> r[i] == Normalized(cs[i])
  {
    seq(|cs|, i requires 0 <= i < |cs| => Normalized(cs[i]))
  }

  predicate IsNormal(c: Constraint) {
    c.answer == "no" || c.answer == "yes"
  }

  /**
   * evaluateConstraint: a number passes a constraint on an unknown question;
   * otherwise it passes when the test result agrees with the answer, which
   * counts as "yes" only when it is literally "yes".
   */
  predicate Satisfies(n: int, c: Constraint) {
    match QuestionByKey(c.questionKey)
    case None => true
    case Some(q) => if c.answer == "yes" then Holds(q.test, n) else !Holds(q.test, n)
  }

  method EvaluateConstraint(n: int, c: Constraint) returns (b: bool)
    ensures b == Satisfies(n, c)
    ensures QuestionByKey(c.questionKey).None? ==> b
    ensures QuestionByKey(c.questionKey).Some? ==>
      (b <==> (c.answer == "yes" <==> Holds(QuestionByKey(c.questionKey).value.test, n)))
  {
    var q := QuestionByKey(c.questionKey);
    if q.None? {
      return true;
    }
    var result := RunTest(q.value.test, n);
    b := if c.answer == "yes" then result else !result;
  }

  predicate SatisfiesAll(n: int, cs: seq<Constraint>) {
    forall c :: c in cs ==> Satisfies(n, c)
  }

  /** The filter callback: every constraint in turn, rejecting at the first that fails. */
  method PassesAll(n: int, cs: seq<Constraint>) returns (ok: bool)
    ensures ok == SatisfiesAll(n, cs)
  {
    var i := 0;
    while i < |cs|
      invariant 0 <= i <= |cs|
      invariant forall j :: 0 <= j < i ==> Satisfies(n, cs[j])
    {
      var passed := EvaluateConstraint(n, cs[i]);
      if !passed {
        assert cs[i] in cs;
        return false;
      }
      i := i + 1;
    }
    return true;
  }

  // ----------------------------------------------------------------- universe

  /** The numbers 1..max in order. */
  function Universe(max: nat): (u: seq<int>)
    ensures |u| == max
    ensures forall k :: 0 <= k < max ==> u[k] == k + 1
  {
    seq(max, k => k + 1)
  }

  predicate StrictlyIncreasing(s: seq<int>) {
    forall i, j :: 0 <= i < j < |s| ==> s[i] < s[j]
  }

  lemma UniverseMembers(max: nat)
    ensures StrictlyIncreasing(Universe(max))
    ensures forall n :: n in Universe(max) <==> 1 <= n <= max
  {
    var u := Universe(max);
    forall n | 1 <= n <= max
      ensures n in u
    {
      assert u[n - 1] == n;
    }
  }

  /** createUniverse: a counting loop fills [1, 2, ..., max] with max = clampInt(maxNumber, 2, 1000). */
  method CreateUniverse(maxNumber: Num) returns (values: seq<int>)
    ensures values == Universe(ClampInt(maxNumber, 2, 1000))
  {
    var max := ClampInt(maxNumber, 2, 1000);
    values := seq(max, _ => 0);
    var i := 1;
    while i <= max
      invariant 1 <= i <= max + 1 && |values| == max
      invariant forall k :: 0 <= k < i - 1 ==> values[k] == k + 1
    {
      values := values[i - 1 := i];
      i := i + 1;
    }
  }

  // --------------------------------------------------------------- active set

  /** The numbers of `u` that satisfy every constraint, in the order of `u`. */
  function Keep(u: seq<int>, cs: seq<Constraint>): (r: seq<int>)
    ensures |r| <= |u|
    ensures forall n :: n in r <==> n in u && SatisfiesAll(n, cs)
  {
    if |u| == 0 then []
    else
      var last := u[|u| - 1];
      assert u == u[..|u| - 1] + [last];
      Keep(u[..|u| - 1], cs) + (if SatisfiesAll(last, cs) then [last] else [])
  }

  /** buildActiveSet(maxNumber, constraints) as a value. */
  function ActiveSet(maxNumber: Num, cs: seq<Constraint>): seq<int> {
    Keep(Universe(ClampInt(maxNumber, 2, 1000)), cs)
  }

  /** buildActiveSet: the universe filtered by the constraints, number by number. */
  method BuildActiveSet(maxNumber: Num, cs: seq<Constraint>) returns (active: seq<int>)
    ensures active == ActiveSet(maxNumber, cs)
  {
    var universe := CreateUniverse(maxNumber);
    active := [];
    var i := 0;
    while i < |universe|
      invariant 0 <= i <= |universe|
      invariant active == Keep(universe[..i], cs)
    {
      assert universe[..i + 1][..i] == universe[..i];
      var ok := PassesAll(universe[i], cs);
      if ok {
        active := active + [universe[i]];
      }
      i := i + 1;
    }
    assert universe[..i] == universe;
  }

  /** The active set holds exactly the numbers 1..max that satisfy every constraint. */
  lemma ActiveSetMembers(maxNumber: Num, cs: seq<Constraint>, n: int)
    ensures n in ActiveSet(maxNumber, cs) <==>
      1 <= n <= ClampInt(maxNumber, 2, 1000) && SatisfiesAll(n, cs)
  {
    UniverseMembers(ClampInt(maxNumber, 2, 1000));
  }

  lemma {:induction false} KeepIncreasing(u: seq<int>, cs: seq<Constraint>)
    requires StrictlyIncreasing(u)
    ensures StrictlyIncreasing(Keep(u, cs))
  {
    if |u| > 0 {
      var init := u[..|u| - 1];
      var last := u[|u| - 1];
      assert StrictlyIncreasing(init);
      KeepIncreasing(init, cs);
      var kept := Keep(init, cs);
      forall i | 0 <= i < |kept|
        ensures kept[i] < last
      {
        assert kept[i] in kept;
        var k :| 0 <= k < |init| && init[k] == kept[i];
      }
    }
  }

  /** The active list is strictly increasing, so it lists every remaining number once. */
  lemma ActiveSetIncreasing(maxNumber: Num, cs: seq<Constraint>)
    ensures StrictlyIncreasing(ActiveSet(maxNumber, cs))
  {
    UniverseMembers(ClampInt(maxNumber, 2, 1000));
    KeepIncreasing(Universe(ClampInt(maxNumber, 2, 1000)), cs);
  }

  lemma {:induction false} KeepDependsOnlyOnTests(u: seq<int>, cs1: seq<Constraint>, cs2: seq<Constraint>)
    requires forall n :: n in u ==> (SatisfiesAll(n, cs1) <==> SatisfiesAll(n, cs2))
    ensures Keep(u, cs1) == Keep(u, cs2)
  {
    if |u| > 0 {
      KeepDependsOnlyOnTests(u[..|u| - 1], cs1, cs2);
    }
  }

  /** The order (and repetition) of the constraints does not change the active set. */
  lemma ActiveSetOrderIndependent(maxNumber: Num, cs1: seq<Constraint>, cs2: seq<Constraint>)
    requires forall c :: c in cs1 <==> c in cs2
    ensures ActiveSet(maxNumber, cs1) == ActiveSet(maxNumber, cs2)
  {
    KeepDependsOnlyOnTests(Universe(ClampInt(maxNumber, 2, 1000)), cs1, cs2);
  }

  // ------------------------------------------------------------------- states

  datatype GameState = GameState(maxNumber: int, constraints: seq<Constraint>, active: seq<int>)

  /** buildState: clamp the size, record every answer as "yes"/"no", filter the universe. */
  function BuildState(maxNumber: Num, constraints: seq<Constraint>): (s: GameState)
    ensures 2 <= s.maxNumber <= 1000
    ensures s.maxNumber == ClampInt(maxNumber, 2, 1000)
    ensures s.constraints == NormalizedAll(constraints)
    ensures forall n :: n in s.active <==> 1 <= n <= s.maxNumber && SatisfiesAll(n, s.constraints)
  {
    var max := ClampInt(maxNumber, 2, 1000);
    var safe := NormalizedAll(constraints);
    ClampIntOfWhole(max, 2, 1000);
    UniverseMembers(max);
    GameState(max, safe, ActiveSet(Finite(max as real), safe))
  }

  /** A state that buildState could have produced from its own fields. */
  predicate Consistent(s: GameState) {
    2 <= s.maxNumber <= 1000
    && (forall c :: c in s.constraints ==> IsNormal(c))
    && s.active == ActiveSet(Finite(s.maxNumber as real), s.constraints)
  }

  lemma BuildStateConsistent(maxNumber: Num, constraints: seq<Constraint>)
    ensures Consistent(BuildState(maxNumber, constraints))
  {
    var max := ClampInt(maxNumber, 2, 1000);
    ClampIntOfWhole(max, 2, 1000);
  }

  /** Building a consistent state again from its own fields gives it back. */
  lemma RebuildConsistent(s: GameState)
    requires Consistent(s)
    ensures BuildState(Finite(s.maxNumber as real), s.constraints) == s
  {
    ClampIntOfWhole(s.maxNumber, 2, 1000);
    var safe := NormalizedAll(s.constraints);
    assert safe == s.constraints by {
      forall i | 0 <= i < |s.constraints|
        ensures safe[i] == s.constraints[i]
      {
        assert s.constraints[i] in s.constraints;
      }
    }
  }

  /** initialState: `maxNumber || 100` (so 0 and NaN give 100), and no constraints. */
  function InitialState(maxNumber: Num): (s: GameState)
    ensures Consistent(s) && s.constraints == []
    ensures !Truthy(maxNumber) ==> s.maxNumber == 100 && s.active == Universe(100)
  {
    BuildStateConsistent(OrDefault(maxNumber, 100.0), []);
    NoConstraintsKeepAll(Universe(100));
    BuildState(OrDefault(maxNumber, 100.0), [])
  }

  lemma {:induction false} NoConstraintsKeepAll(u: seq<int>)
    ensures Keep(u, []) == u
  {
    if |u| > 0 {
      NoConstraintsKeepAll(u[..|u| - 1]);
      assert u == u[..|u| - 1] + [u[|u| - 1]];
    }
  }

  /** applyConstraint: one more answer, recorded as "yes"/"no", and the state rebuilt. */
  function ApplyConstraint(s: GameState, questionKey: string, answer: string): (r: GameState)
    requires Consistent(s)
    ensures Consistent(r)
    ensures r.maxNumber == s.maxNumber
    ensures r.constraints == s.constraints + [Constraint(questionKey, NormalAnswer(answer))]
    ensures forall n :: n in r.active ==> n in s.active
  {
    var next := s.constraints + [Constraint(questionKey, NormalAnswer(answer))];
    RebuildConsistent(s);
    BuildStateConsistent(Finite(s.maxNumber as real), next);
    ClampIntOfWhole(s.maxNumber, 2, 1000);
    var r := BuildState(Finite(s.maxNumber as real), next);
    assert r.constraints == next by {
      forall i | 0 <= i < |next|
        ensures r.constraints[i] == next[i]
      {
        if i < |s.constraints| {
          assert next[i] in s.constraints;
        }
      }
    }
    forall n | n in r.active
      ensures n in s.active
    {
      assert s.constraints <= next;
    }
    r
  }

  /**
   * Answering the same known question "yes" and "no" splits the active set in
   * two: every remaining number survives exactly one of the answers. A
   * question the bank does not know rules nothing out either way.
   */
  lemma YesNoPartition(s: GameState, questionKey: string, n: int)
    requires Consistent(s)
    ensures var yes := ApplyConstraint(s, questionKey, "yes");
      var no := ApplyConstraint(s, questionKey, "no");
      if QuestionByKey(questionKey).Some? then
        (n in s.active <==> n in yes.active || n in no.active) && !(n in yes.active && n in no.active)
      else
        yes.active == s.active && no.active == s.active
  {
    var yes := ApplyConstraint(s, questionKey, "yes");
    var no := ApplyConstraint(s, questionKey, "no");
    ActiveSetMembers(Finite(s.maxNumber as real), s.constraints, n);
    ActiveSetMembers(Finite(s.maxNumber as real), yes.constraints, n);
    ActiveSetMembers(Finite(s.maxNumber as real), no.constraints, n);
    var cy := Constraint(questionKey, "yes");
    var cn := Constraint(questionKey, "no");
    assert SatisfiesAll(n, yes.constraints) <==> SatisfiesAll(n, s.constraints) && Satisfies(n, cy);
    assert SatisfiesAll(n, no.constraints) <==> SatisfiesAll(n, s.constraints) && Satisfies(n, cn);
    if QuestionByKey(questionKey).None? {
      ActiveSetOrderIndependentOnUnknown(s, cy);
      ActiveSetOrderIndependentOnUnknown(s, cn);
    }
  }

  /** A constraint on an unknown question leaves the active set as it was. */
  lemma ActiveSetOrderIndependentOnUnknown(s: GameState, c: Constraint)
    requires Consistent(s) && QuestionByKey(c.questionKey).None?
    ensures ActiveSet(Finite(s.maxNumber as real), s.constraints + [c]) == s.active
  {
    var u := Universe(ClampInt(Finite(s.maxNumber as real), 2, 1000));
    KeepDependsOnlyOnTests(u, s.constraints + [c], s.constraints);
  }

  /** removeLastConstraint: nothing to undo leaves the state as it is; otherwise the last answer goes. */
  function RemoveLastConstraint(s: GameState): (r: GameState)
    requires Consistent(s)
    ensures Consistent(r) && r.maxNumber == s.maxNumber
    ensures |s.constraints| == 0 ==> r == s
    ensures |s.constraints| > 0 ==> r.constraints == s.constraints[..|s.constraints| - 1]
  {
    if |s.constraints| == 0 then s
    else
      var next := s.constraints[..|s.constraints| - 1];
      var r := BuildState(Finite(s.maxNumber as real), next);
      BuildStateConsistent(Finite(s.maxNumber as real), next);
      ClampIntOfWhole(s.maxNumber, 2, 1000);
      assert r.constraints == next by {
        forall i | 0 <= i < |next|
          ensures r.constraints[i] == next[i]
        {
          assert next[i] in s.constraints;
        }
      }
      r
  }

  /** Undo after an answer gives back the state the answer was given in. */
  lemma UndoAfterApply(s: GameState, questionKey: string, answer: string)
    requires Consistent(s)
    ensures RemoveLastConstraint(ApplyConstraint(s, questionKey, answer)) == s
  {
    var a := ApplyConstraint(s, questionKey, answer);
    assert a.constraints[..|a.constraints| - 1] == s.constraints;
    RebuildConsistent(s);
  }

  // ------------------------------------------------------------------ metrics

  /** The counts of `metrics`; the entropy in bits is not part of this model. */
  datatype Metrics = Metrics(total: int, remaining: int, eliminated: int)

  function GameMetrics(s: GameState): (m: Metrics)
    ensures m.total == s.maxNumber && m.remaining == |s.active|
    ensures m.eliminated >= 0
    ensures m.remaining <= m.total ==> m.eliminated == m.total - m.remaining
  {
    var total := s.maxNumber;
    var remaining := |s.active|;
    Metrics(total, remaining, if total - remaining > 0 then total - remaining else 0)
  }

  /** In any consistent state no more numbers remain than the universe holds. */
  lemma MetricsAddUp(s: GameState)
    requires Consistent(s)
    ensures GameMetrics(s).remaining <= GameMetrics(s).total
    ensures GameMetrics(s).eliminated + GameMetrics(s).remaining == GameMetrics(s).total
  {
    ClampIntOfWhole(s.maxNumber, 2, 1000);
  }

  // ------------------------------------------------------------- description

  /** describeConstraint: the question's label (or the raw key) and " = Yes" or " = No". */
  function DescribeConstraint(c: Constraint): (text: string)
    ensures var base := if QuestionByKey(c.questionKey).Some? then QuestionByKey(c.questionKey).value.title else c.questionKey;
      var suffix := if c.answer == "no" then " = No" else " = Yes";
      |text| == |base| + |suffix| && text[..|base|] == base && text[|base|..] == suffix
  {
    var q := QuestionByKey(c.questionKey);
    var base := if q.Some? then q.value.title else c.questionKey;
    base + " = " + (if c.answer == "no" then "No" else "Yes")
  }

  /** Two answers to the same question read the same exactly when they are recorded as the same answer. */
  lemma DescriptionShowsAnswer(questionKey: string, a1: string, a2: string)
    ensures DescribeConstraint(Constraint(questionKey, a1)) == DescribeConstraint(Constraint(questionKey, a2))
      <==> NormalAnswer(a1) == NormalAnswer(a2)
  {
    var d1 := DescribeConstraint(Constraint(questionKey, a1));
    var d2 := DescribeConstraint(Constraint(questionKey, a2));
    if NormalAnswer(a1) != NormalAnswer(a2) {
      assert |d1| != |d2|;
    }
  }
}
