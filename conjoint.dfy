/** The choice-based conjoint (CBC) formulas of utils/calculations.ts: the design
    efficiency factor, Orme's minimum sample for main effects and for two-way
    interactions, the per-attribute standard errors, the efficiency classification
    and the task optimizer that inverts the standard error for a target of 0.05. */
module Conjoint {
  import opened Types
  import opened Numeric

  /** The multiplier of Orme's rule of thumb, for main effects and interactions alike. */
  const OrmeConstant: int := 500

  /** The standard error the task optimizer aims for. */
  const TargetSE: real := 0.05

  /** Statistical information a construction heuristic keeps, relative to a fully
      orthogonal design; random designs keep the least. */
  function EfficiencyFactor(m: DesignMethod): (e: real)
    ensures 0.8 <= e <= 1.0
    ensures e == 1.0 <==> m == Complete
    ensures e == 0.8 <==> m == Random
  {
    match m
    case Complete => 1.0
    case Balanced => 0.95
    case Shortcut => 0.90
    case Random => 0.80
  }

  /** Distinct methods have distinct factors, ordered complete, balanced, shortcut, random. */
  lemma EfficiencyOrder(m1: DesignMethod, m2: DesignMethod)
    ensures EfficiencyFactor(m1) == EfficiencyFactor(m2) ==> m1 == m2
    ensures EfficiencyFactor(Random) < EfficiencyFactor(Shortcut) < EfficiencyFactor(Balanced) < EfficiencyFactor(Complete)
  {
  }

  /** Math.max(...attributes.map(a => a.levels), floor): the larger of floor and the
      largest level count. */
  function MaxLevels(attrs: seq<Attribute>, floor: int): (m: int)
    ensures m >= floor
  {
    if attrs == [] then floor
    else Max(MaxLevels(attrs[..|attrs| - 1], floor), attrs[|attrs| - 1].levels)
  }

  /** MaxLevels is at least every level count, and it is the floor or some
      attribute's level count. */
  lemma {:induction false} MaxLevelsIsMax(attrs: seq<Attribute>, floor: int)
    ensures forall i :: 0 <= i < |attrs| ==> attrs[i].levels <= MaxLevels(attrs, floor)
    ensures MaxLevels(attrs, floor) == floor
            || exists i :: 0 <= i < |attrs| && attrs[i].levels == MaxLevels(attrs, floor)
  {
    if attrs != [] {
      var n := |attrs| - 1;
      MaxLevelsIsMax(attrs[..n], floor);
      assert forall i :: 0 <= i < n ==> attrs[..n][i] == attrs[i];
    }
  }

  /** ceil(constant * cells / (nTasks * conceptsPerTask)): the smallest sample that
      gives every cell `constant` observations. With a positive divisor it is the
      least integer whose product with the divisor reaches constant * cells. */
  function RuleOfThumb(constant: int, cells: int, nTasks: int, conceptsPerTask: int): (m: int)
    requires nTasks * conceptsPerTask != 0
    ensures nTasks * conceptsPerTask > 0 ==>
              m * (nTasks * conceptsPerTask) >= constant * cells
              && (m - 1) * (nTasks * conceptsPerTask) < constant * cells
  {
    var divisor := nTasks * conceptsPerTask;
    var result := (constant * cells) as real / divisor as real;
    if divisor > 0 then
      CeilQuotient((constant * cells) as real, divisor as real);
      ProductAsReal(Ceil(result), divisor);
      ProductAsReal(Ceil(result) - 1, divisor);
      Ceil(result)
    else
      Ceil(result)
  }

  /** Orme's rule for main effects: 0 for no tasks, no concepts or no attributes,
      otherwise the rule of thumb over the attribute with the most levels. */
  function CalculateOrmeMinSample(s: ConjointState): (m: int)
    ensures s.nTasks == 0 || s.conceptsPerTask == 0 || s.attributes == [] ==> m == 0
    ensures s.nTasks * s.conceptsPerTask > 0 && s.attributes != [] ==>
              m * (s.nTasks * s.conceptsPerTask) >= OrmeConstant * MaxLevels(s.attributes, 0)
              && (m - 1) * (s.nTasks * s.conceptsPerTask) < OrmeConstant * MaxLevels(s.attributes, 0)
  {
    if s.nTasks == 0 || s.conceptsPerTask == 0 || |s.attributes| == 0 then 0
    else RuleOfThumb(OrmeConstant, MaxLevels(s.attributes, 0), s.nTasks, s.conceptsPerTask)
  }

  /** A configuration the user interface allows (tasks, concepts and an attribute
      with levels) never reaches the "Invalid Configuration" case. */
  lemma OrmeMinSamplePositive(s: ConjointState)
    requires s.nTasks > 0 && s.conceptsPerTask > 0
    requires exists i :: 0 <= i < |s.attributes| && s.attributes[i].levels > 0
    ensures CalculateOrmeMinSample(s) >= 1
  {
    var p := s.nTasks * s.conceptsPerTask;
    var m := CalculateOrmeMinSample(s);
    assert p > 0;
    MaxLevelsIsMax(s.attributes, 0);
    assert MaxLevels(s.attributes, 0) > 0;
    assert m * p > 0;
  }

  /** Orme's example: one three-level attribute, 10 tasks, 3 concepts needs 50 respondents. */
  lemma OrmeExample()
    ensures CalculateOrmeMinSample(ConjointState([Attribute("1", "A", 3)], 10, 3, 100, 0, Complete)) == 50
  {
    var s := ConjointState([Attribute("1", "A", 3)], 10, 3, 100, 0, Complete);
    assert MaxLevels(s.attributes, 0) == 3;
  }

  /** The largest of 0 and attrs[i].levels * x over the attributes. */
  function MaxProductWith(attrs: seq<Attribute>, x: int): (m: int)
    ensures m >= 0
  {
    if attrs == [] then 0
    else Max(MaxProductWith(attrs[..|attrs| - 1], x), attrs[|attrs| - 1].levels * x)
  }

  /** MaxProductWith is at least every product, and 0 or one of them. */
  lemma {:induction false} MaxProductWithIsMax(attrs: seq<Attribute>, x: int)
    ensures forall i :: 0 <= i < |attrs| ==> attrs[i].levels * x <= MaxProductWith(attrs, x)
    ensures MaxProductWith(attrs, x) == 0
            || exists i :: 0 <= i < |attrs| && attrs[i].levels * x == MaxProductWith(attrs, x)
  {
    if attrs != [] {
      var n := |attrs| - 1;
      MaxProductWithIsMax(attrs[..n], x);
      assert forall i :: 0 <= i < n ==> attrs[..n][i] == attrs[i];
    }
  }

  /** The number of cells of the largest two-way interaction table: the largest
      product of the level counts of two distinct attributes, or 0 when there is no
      pair or no pair's product is positive. */
  function MaxInteractionCells(attrs: seq<Attribute>): (m: int)
    ensures m >= 0
  {
    if attrs == [] then 0
    else
      var n := |attrs| - 1;
      Max(MaxInteractionCells(attrs[..n]), MaxProductWith(attrs[..n], attrs[n].levels))
  }

  /** MaxInteractionCells is at least the product of every pair i < j, and 0 or the
      product of one such pair. */
  lemma {:induction false} MaxInteractionCellsIsMax(attrs: seq<Attribute>)
    ensures forall i, j :: 0 <= i < j < |attrs| ==> attrs[i].levels * attrs[j].levels <= MaxInteractionCells(attrs)
    ensures MaxInteractionCells(attrs) == 0
            || exists i, j :: 0 <= i < j < |attrs| && attrs[i].levels * attrs[j].levels == MaxInteractionCells(attrs)
  {
    if attrs != [] {
      var n := |attrs| - 1;
      var prefix := attrs[..n];
      assert forall i :: 0 <= i < n ==> prefix[i] == attrs[i];
      MaxInteractionCellsIsMax(prefix);
      MaxProductWithIsMax(prefix, attrs[n].levels);
      var withLast := MaxProductWith(prefix, attrs[n].levels);
      assert withLast != 0 ==> exists i :: 0 <= i < n && attrs[i].levels * attrs[n].levels == withLast;
    }
  }

  /** Those properties determine MaxInteractionCells. */
  lemma MaxInteractionCellsUnique(attrs: seq<Attribute>, m: int)
    requires m >= 0
    requires forall i, j :: 0 <= i < j < |attrs| ==> attrs[i].levels * attrs[j].levels <= m
    requires m == 0 || exists i, j :: 0 <= i < j < |attrs| && attrs[i].levels * attrs[j].levels == m
    ensures m == MaxInteractionCells(attrs)
  {
    var best := MaxInteractionCells(attrs);
    MaxInteractionCellsIsMax(attrs);
    if m != 0 {
      var i, j :| 0 <= i < j < |attrs| && attrs[i].levels * attrs[j].levels == m;
      assert m <= best;
    }
    if best != 0 {
      var i, j :| 0 <= i < j < |attrs| && attrs[i].levels * attrs[j].levels == best;
      assert best <= m;
    }
  }

  /** With levels 3, 4 and 2 the largest interaction is 3 x 4 = 12. */
  lemma InteractionExample()
    ensures MaxInteractionCells([Attribute("a", "A", 3), Attribute("b", "B", 4), Attribute("c", "C", 2)]) == 12
  {
    var attrs := [Attribute("a", "A", 3), Attribute("b", "B", 4), Attribute("c", "C", 2)];
    assert attrs[0].levels * attrs[1].levels == 12;
    MaxInteractionCellsUnique(attrs, 12);
  }

  /** The minimum sample for two-way interactions: (0, 0) with fewer than two
      attributes; otherwise the nested loop keeps the largest product seen so far and
      Orme's rule is applied to it. With two attributes or more the division by
      nTasks * conceptsPerTask is unguarded (JavaScript then yields Infinity or NaN),
      so that case is excluded. */
  method CalculateInteractionSample(s: ConjointState) returns (maxInteractionCells: int, minSample: int)
    requires |s.attributes| < 2 || s.nTasks * s.conceptsPerTask != 0
    ensures maxInteractionCells == MaxInteractionCells(s.attributes)
    ensures |s.attributes| < 2 ==> minSample == 0
    ensures |s.attributes| >= 2 ==>
              minSample == RuleOfThumb(OrmeConstant, maxInteractionCells, s.nTasks, s.conceptsPerTask)
  {
    var attrs := s.attributes;
    var n := |attrs|;
    if n < 2 {
      MaxInteractionCellsUnique(attrs, 0);
      return 0, 0;
    }
    maxInteractionCells := 0;
    for i := 0 to n
      invariant maxInteractionCells >= 0
      invariant forall p, q :: 0 <= p < i && p < q < n ==>
                  attrs[p].levels * attrs[q].levels <= maxInteractionCells
      invariant maxInteractionCells == 0 ||
                (exists p, q :: 0 <= p < q < n && attrs[p].levels * attrs[q].levels == maxInteractionCells)
    {
      for j := i + 1 to n
        invariant maxInteractionCells >= 0
        invariant forall p, q :: 0 <= p < i && p < q < n ==>
                    attrs[p].levels * attrs[q].levels <= maxInteractionCells
        invariant forall q :: i < q < j ==> attrs[i].levels * attrs[q].levels <= maxInteractionCells
        invariant maxInteractionCells == 0 ||
                  (exists p, q :: 0 <= p < q < n && attrs[p].levels * attrs[q].levels == maxInteractionCells)
      {
        var interaction := attrs[i].levels * attrs[j].levels;
        if interaction > maxInteractionCells {
          maxInteractionCells := interaction;
        }
      }
    }
    MaxInteractionCellsUnique(attrs, maxInteractionCells);
    minSample := RuleOfThumb(OrmeConstant, maxInteractionCells, s.nTasks, s.conceptsPerTask);
  }

  /** The share of "none" answers: percentNone clamped into [0, 99], as a fraction. */
  function NoneAsDecimal(percentNone: int): (d: real)
    ensures 0.0 <= d <= 0.99
    ensures 0 <= percentNone <= 99 ==> d * 100.0 == percentNone as real
    ensures percentNone < 0 ==> d == 0.0
    ensures percentNone > 99 ==> d == 0.99
  {
    Clamp(percentNone, 0, 99) as real / 100.0
  }

  /** The observations a design gathers: every respondent answers every task. */
  function Observations(s: ConjointState): (o: int)
    ensures o == 0 <==> s.sampleSize == 0 || s.nTasks == 0
  {
    s.sampleSize * s.nTasks
  }

  /** The share of information an observation carries: the design efficiency times
      the share of answers that are not "none". */
  function AnswerWeight(s: ConjointState): (k: real)
    ensures 0.0 < k <= 1.0
  {
    var answered := 1.0 - NoneAsDecimal(s.percentNone);
    assert 0.0 < answered <= 1.0;
    EfficiencyFactor(s.designMethod) * answered
  }

  /** The information the design gathers per level: sampleSize * nTasks observations
      weighted by AnswerWeight. */
  function InformationWeight(s: ConjointState): (w: real)
    ensures Observations(s) > 0 ==> w > 0.0
  {
    Weight(Observations(s), AnswerWeight(s))
  }

  /** observations answers, each worth the given weight. */
  function Weight(observations: int, answerWeight: real): (w: real)
    ensures observations > 0 && answerWeight > 0.0 ==> w > 0.0
  {
    observations as real * answerWeight
  }

  /** The standard error of one attribute's part-worths:
      sqrt(levels) / sqrt(sampleSize * nTasks) * 1/sqrt(efficiency) * sqrt(1 / (1 - none)),
      held as its square. It is 0 when there are no observations, and NaN when the
      square root of a negative number is taken (negative observations or levels);
      otherwise its square is the level count over the information weight. */
  function AttributeStdError(levels: int, s: ConjointState): (e: StdError)
    ensures Observations(s) == 0 ==> e == SqrtOf(0.0)
    ensures e.NaN? <==> Observations(s) < 0 || (Observations(s) > 0 && levels < 0)
    ensures e.SqrtOf? ==> e.square >= 0.0
    ensures Observations(s) > 0 && levels >= 0 ==>
              e.square * InformationWeight(s) == levels as real
  {
    var efficiency := EfficiencyFactor(s.designMethod);
    var designAdjSquared := 1.0 / efficiency;
    var answered := 1.0 - NoneAsDecimal(s.percentNone);
    var noneAdjSquared := 1.0 / answered;
    var observations := Observations(s);
    if observations == 0 then SqrtOf(0.0)
    else if observations < 0 || levels < 0 then NaN
    else
      var baseSquared := levels as real / observations as real;
      var square := baseSquared * designAdjSquared * noneAdjSquared;
      SquareTimesWeight(levels, observations, efficiency, answered);
      SqrtOf(square)
  }

  /** The three squared factors of the standard error are non-negative, and times
      the information weight they give back the level count. */
  lemma SquareTimesWeight(levels: int, observations: int, efficiency: real, answered: real)
    requires observations > 0 && levels >= 0 && efficiency > 0.0 && answered > 0.0
    ensures levels as real / observations as real * (1.0 / efficiency) * (1.0 / answered) >= 0.0
    ensures levels as real / observations as real * (1.0 / efficiency) * (1.0 / answered)
              * Weight(observations, efficiency * answered) == levels as real
  {
    var o := observations as real;
    var base := levels as real / o;
    ProductMonotone(0.0, base, 0.0, 1.0 / efficiency);
    ProductMonotone(0.0, base * (1.0 / efficiency), 0.0, 1.0 / answered);
    assert base * o == levels as real;
    assert (1.0 / efficiency) * efficiency == 1.0;
    assert (1.0 / answered) * answered == 1.0;
    assert base * (1.0 / efficiency) * (1.0 / answered) * (o * (efficiency * answered))
           == (base * o) * ((1.0 / efficiency) * efficiency) * ((1.0 / answered) * answered);
  }

  /** The square of a standard error as the quotient it is. */
  lemma StdErrorSquare(levels: int, s: ConjointState)
    requires Observations(s) > 0 && levels >= 0
    ensures AttributeStdError(levels, s) == SqrtOf(levels as real / InformationWeight(s))
  {
  }

  /** More levels never lower an attribute's standard error. */
  lemma StdErrorGrowsWithLevels(s: ConjointState, levels1: int, levels2: int)
    requires Observations(s) >= 0 && 0 <= levels1 <= levels2
    ensures AttributeStdError(levels1, s).AtMost(AttributeStdError(levels2, s))
  {
    if Observations(s) > 0 {
      StdErrorSquare(levels1, s);
      StdErrorSquare(levels2, s);
      var w := InformationWeight(s);
      QuotientAtMost(levels1 as real, w, levels2 as real / w);
    }
  }

  /** More observations (sampleSize * nTasks) never raise an attribute's standard error. */
  lemma StdErrorShrinksWithObservations(levels: int, s1: ConjointState, s2: ConjointState)
    requires levels >= 0 && 0 < Observations(s1) <= Observations(s2)
    requires s1.designMethod == s2.designMethod && s1.percentNone == s2.percentNone
    ensures AttributeStdError(levels, s2).AtMost(AttributeStdError(levels, s1))
  {
    var o1, o2 := Observations(s1) as real, Observations(s2) as real;
    assert AnswerWeight(s2) == AnswerWeight(s1);
    ProductMonotone(o1, o2, AnswerWeight(s1), AnswerWeight(s1));
    StdErrorFollowsWeight(levels, s2, s1);
  }

  /** A less efficient design method or a larger share of "none" answers never
      lowers an attribute's standard error. */
  lemma StdErrorInflation(levels: int, s: ConjointState, design: DesignMethod, percentNone: int)
    requires levels >= 0 && Observations(s) > 0
    requires EfficiencyFactor(design) <= EfficiencyFactor(s.designMethod)
    requires NoneAsDecimal(s.percentNone) <= NoneAsDecimal(percentNone)
    ensures AttributeStdError(levels, s).AtMost(
              AttributeStdError(levels, s.(designMethod := design, percentNone := percentNone)))
  {
    var s' := s.(designMethod := design, percentNone := percentNone);
    AnswerWeightShrinks(s, s');
    assert Observations(s') == Observations(s);
    WeightFollowsAnswerWeight(s, s');
    StdErrorFollowsWeight(levels, s, s');
  }

  /** With the same observations, the information weight follows the answer weight. */
  lemma WeightFollowsAnswerWeight(s1: ConjointState, s2: ConjointState)
    requires Observations(s1) == Observations(s2) > 0
    requires AnswerWeight(s2) <= AnswerWeight(s1)
    ensures InformationWeight(s2) <= InformationWeight(s1)
  {
    WeightMonotone(Observations(s1), AnswerWeight(s2), AnswerWeight(s1));
  }

  /** More weight per answer, more information. The observations are a parameter,
      so that two designs with equal observations share them. */
  lemma WeightMonotone(observations: int, k1: real, k2: real)
    requires observations > 0 && k1 <= k2
    ensures Weight(observations, k1) <= Weight(observations, k2)
  {
  }

  /** Of two designs with observations, the one with more information weight has
      the smaller standard error. */
  lemma StdErrorFollowsWeight(levels: int, s1: ConjointState, s2: ConjointState)
    requires levels >= 0 && Observations(s1) > 0 && Observations(s2) > 0
    requires InformationWeight(s2) <= InformationWeight(s1)
    ensures AttributeStdError(levels, s1).AtMost(AttributeStdError(levels, s2))
  {
    StdErrorSquare(levels, s1);
    StdErrorSquare(levels, s2);
    QuotientAntitone(levels as real, InformationWeight(s2), InformationWeight(s1));
  }

  /** A lower efficiency factor or a larger "none" share lowers the answer weight. */
  lemma AnswerWeightShrinks(s1: ConjointState, s2: ConjointState)
    requires EfficiencyFactor(s2.designMethod) <= EfficiencyFactor(s1.designMethod)
    requires NoneAsDecimal(s1.percentNone) <= NoneAsDecimal(s2.percentNone)
    ensures AnswerWeight(s2) <= AnswerWeight(s1)
  {
    var e1, e2 := EfficiencyFactor(s1.designMethod), EfficiencyFactor(s2.designMethod);
    var a1, a2 := 1.0 - NoneAsDecimal(s1.percentNone), 1.0 - NoneAsDecimal(s2.percentNone);
    ProductMonotone(e2, e1, a2, a1);
  }

  /** An attribute together with its estimated standard error. */
  datatype AttributeStat = AttributeStat(id: string, name: string, levels: int, stdError: StdError)

  /** One entry per attribute, in order: the { ...attr, stdError } spread keeps its
      id, name and levels and adds its standard error. */
  function CalculateAttributeStats(s: ConjointState): (stats: seq<AttributeStat>)
    ensures |stats| == |s.attributes|
    ensures forall i :: 0 <= i < |stats| ==>
              && stats[i].id == s.attributes[i].id
              && stats[i].name == s.attributes[i].name
              && stats[i].levels == s.attributes[i].levels
              && stats[i].stdError == AttributeStdError(s.attributes[i].levels, s)
    ensures Observations(s) == 0 ==> forall i :: 0 <= i < |stats| ==> stats[i].stdError == SqrtOf(0.0)
  {
    seq(|s.attributes|, i requires 0 <= i < |s.attributes| =>
      AttributeStat(s.attributes[i].id, s.attributes[i].name, s.attributes[i].levels,
                    AttributeStdError(s.attributes[i].levels, s)))
  }

  /** The sample size measured against Orme's minimum: "Invalid Configuration" when
      that minimum is 0, otherwise tiers on the ratio at 0.7, 1.0 and 1.5. */
  function CalculateCBCEfficiency(s: ConjointState): (v: ValidationResult)
    ensures CalculateOrmeMinSample(s) == 0 ==> v == ValidationResult(Critical, "Invalid Configuration", 0)
    ensures CalculateOrmeMinSample(s) != 0 ==> v.score == [20, 50, 80, 100][v.status.Rank()]
  {
    var minSample := CalculateOrmeMinSample(s);
    if minSample == 0 then ValidationResult(Critical, "Invalid Configuration", 0)
    else
      var efficiency := s.sampleSize as real / minSample as real;
      if efficiency < 0.7 then ValidationResult(Critical, "Critical. Sample too small.", 20)
      else if efficiency < 1.0 then ValidationResult(Poor, "Risk. Below Orme recommendation.", 50)
      else if efficiency < 1.5 then ValidationResult(Acceptable, "Acceptable.", 80)
      else ValidationResult(Excellent, "Robust.", 100)
  }

  /** With a positive minimum m and sample size n the tiers are: Critical for
      10n < 7m, Poor for 7m <= 10n < 10m, Acceptable for m <= n and 2n < 3m,
      Excellent for 3m <= 2n. */
  lemma CBCEfficiencyTiers(s: ConjointState)
    requires CalculateOrmeMinSample(s) > 0
    ensures var m, n, v := CalculateOrmeMinSample(s), s.sampleSize, CalculateCBCEfficiency(s);
      && (v.status == Critical <==> 10 * n < 7 * m)
      && (v.status == Poor <==> 7 * m <= 10 * n < 10 * m)
      && (v.status == Acceptable <==> m <= n && 2 * n < 3 * m)
      && (v.status == Excellent <==> 3 * m <= 2 * n)
  {
    var m, n := CalculateOrmeMinSample(s) as real, s.sampleSize as real;
    QuotientAtLeast(n, m, 0.7);
    QuotientAtLeast(n, m, 1.0);
    QuotientAtLeast(n, m, 1.5);
  }

  /** A sample exactly at the minimum is Acceptable: the 1.0 boundary belongs to
      the tier above it. */
  lemma CBCEfficiencyAtMinimum(s: ConjointState)
    requires CalculateOrmeMinSample(s) != 0 && s.sampleSize == CalculateOrmeMinSample(s)
    ensures CalculateCBCEfficiency(s) == ValidationResult(Acceptable, "Acceptable.", 80)
  {
    var m := CalculateOrmeMinSample(s);
    assert s.sampleSize as real / m as real == 1.0;
  }

  /** A larger sample never gives a worse tier or a lower score. */
  lemma CBCEfficiencyMonotone(s: ConjointState, n1: int, n2: int)
    requires CalculateOrmeMinSample(s) > 0 && n1 <= n2
    ensures CalculateCBCEfficiency(s.(sampleSize := n1)).status.Rank()
            <= CalculateCBCEfficiency(s.(sampleSize := n2)).status.Rank()
    ensures CalculateCBCEfficiency(s.(sampleSize := n1)).score
            <= CalculateCBCEfficiency(s.(sampleSize := n2)).score
  {
    var m := CalculateOrmeMinSample(s) as real;
    assert CalculateOrmeMinSample(s.(sampleSize := n1)) == CalculateOrmeMinSample(s);
    assert CalculateOrmeMinSample(s.(sampleSize := n2)) == CalculateOrmeMinSample(s);
    QuotientAtMost(n1 as real, m, n2 as real / m);
  }

  /** sampleSize * TargetSE^2 * efficiency * (1 - none), the divisor of the task
      optimizer; it has the sign of the sample size. */
  function TasksDenominator(s: ConjointState): (d: real)
    ensures s.sampleSize > 0 ==> d > 0.0
    ensures s.sampleSize < 0 ==> d < 0.0
    ensures s.sampleSize == 0 ==> d == 0.0
  {
    s.sampleSize as real * (TargetSE * TargetSE) * AnswerWeight(s)
  }

  /** Inverts the standard error formula for TargetSE over the largest level count
      (at least 1): 0 for a zero sample, 1 for a zero denominator (which, the sample
      being non-zero there, cannot happen), otherwise the quotient rounded up. */
  function OptimizeCBCTasks(s: ConjointState): (t: int)
    ensures s.sampleSize == 0 ==> t == 0
    ensures s.sampleSize > 0 ==> t >= 1
    ensures s.sampleSize < 0 ==> t <= 0
  {
    if s.sampleSize == 0 then 0
    else
      var maxLevels := MaxLevels(s.attributes, 1);
      var denominator := TasksDenominator(s);
      if denominator == 0.0 then 1
      else Ceil(maxLevels as real / denominator)
  }

  /** With the optimized number of tasks every attribute (indeed every level count
      up to the largest) has a standard error of at most TargetSE. */
  lemma OptimizeTasksMeetsTarget(s: ConjointState, levels: int)
    requires s.sampleSize > 0 && 0 <= levels <= MaxLevels(s.attributes, 1)
    ensures AttributeStdError(levels, s.(nTasks := OptimizeCBCTasks(s))).AtMost(SqrtOf(TargetSE * TargetSE))
  {
    OptimizeTasksCovers(s);
    TasksMeetTarget(s, OptimizeCBCTasks(s), levels);
  }

  /** With the optimized number of tasks, every attribute statistic with a
      non-negative level count has a standard error of at most TargetSE. */
  lemma OptimizedStatsMeetTarget(s: ConjointState)
    requires s.sampleSize > 0
    ensures var stats := CalculateAttributeStats(s.(nTasks := OptimizeCBCTasks(s)));
            forall i :: 0 <= i < |stats| && stats[i].levels >= 0 ==>
              stats[i].stdError.AtMost(SqrtOf(TargetSE * TargetSE))
  {
    MaxLevelsIsMax(s.attributes, 1);
    forall i | 0 <= i < |s.attributes| && s.attributes[i].levels >= 0
      ensures AttributeStdError(s.attributes[i].levels, s.(nTasks := OptimizeCBCTasks(s)))
                .AtMost(SqrtOf(TargetSE * TargetSE))
    {
      OptimizeTasksMeetsTarget(s, s.attributes[i].levels);
    }
  }

  /** For a positive sample the optimized tasks times the denominator cover the
      largest level count. */
  lemma OptimizeTasksCovers(s: ConjointState)
    requires s.sampleSize > 0
    ensures MaxLevels(s.attributes, 1) as real <= OptimizeCBCTasks(s) as real * TasksDenominator(s)
  {
    OptimizeTasksAsCeil(s);
    CeilQuotient(MaxLevels(s.attributes, 1) as real, TasksDenominator(s));
  }

  /** For a positive sample the optimizer is the rounded-up quotient. */
  lemma OptimizeTasksAsCeil(s: ConjointState)
    requires s.sampleSize > 0
    ensures OptimizeCBCTasks(s) == Ceil(MaxLevels(s.attributes, 1) as real / TasksDenominator(s))
  {
  }

  /** t tasks bring every level count up to the largest to TargetSE when t times the
      denominator covers the largest. */
  lemma TasksMeetTarget(s: ConjointState, t: int, levels: int)
    requires s.sampleSize > 0 && t >= 1 && 0 <= levels <= MaxLevels(s.attributes, 1)
    requires MaxLevels(s.attributes, 1) as real <= t as real * TasksDenominator(s)
    ensures AttributeStdError(levels, s.(nTasks := t)).AtMost(SqrtOf(TargetSE * TargetSE))
  {
    var s' := s.(nTasks := t);
    assert s.sampleSize * t > 0;
    TargetWeight(s, t);
    StdErrorSquare(levels, s');
    QuotientAtMost(levels as real, InformationWeight(s'), TargetSE * TargetSE);
  }

  /** The information weight of t tasks, times TargetSE^2, is t times the optimizer's denominator. */
  lemma TargetWeight(s: ConjointState, t: int)
    ensures TargetSE * TargetSE * InformationWeight(s.(nTasks := t)) == t as real * TasksDenominator(s)
  {
    var k := AnswerWeight(s);
    ProductAsReal(s.sampleSize, t);
    assert AnswerWeight(s.(nTasks := t)) == k;
    assert InformationWeight(s.(nTasks := t)) == (s.sampleSize as real * t as real) * k;
    assert TasksDenominator(s) == s.sampleSize as real * (TargetSE * TargetSE) * k;
  }

  /** No smaller positive number of tasks brings the largest level count to TargetSE. */
  lemma OptimizeTasksIsLeast(s: ConjointState, t: int)
    requires s.sampleSize > 0 && t >= 1
    requires AttributeStdError(MaxLevels(s.attributes, 1), s.(nTasks := t)).AtMost(SqrtOf(TargetSE * TargetSE))
    ensures t >= OptimizeCBCTasks(s)
  {
    TargetNeedsCover(s, t);
    CoverIsLeast(s, t);
  }

  /** Any number of tasks whose product with the denominator covers the largest
      level count is at least the optimizer's result. */
  lemma CoverIsLeast(s: ConjointState, t: int)
    requires s.sampleSize > 0
    requires MaxLevels(s.attributes, 1) as real <= t as real * TasksDenominator(s)
    ensures t >= OptimizeCBCTasks(s)
  {
    var d := TasksDenominator(s);
    var maxLevels := MaxLevels(s.attributes, 1) as real;
    QuotientAtMost(maxLevels, d, t as real);
    OptimizeTasksAsCeil(s);
    CeilIsLeast(maxLevels / d, t);
  }

  /** t tasks that bring the largest level count to TargetSE cover it: t times the
      denominator is at least the largest level count. */
  lemma TargetNeedsCover(s: ConjointState, t: int)
    requires s.sampleSize > 0 && t >= 1
    requires AttributeStdError(MaxLevels(s.attributes, 1), s.(nTasks := t)).AtMost(SqrtOf(TargetSE * TargetSE))
    ensures MaxLevels(s.attributes, 1) as real <= t as real * TasksDenominator(s)
  {
    var s' := s.(nTasks := t);
    assert s.sampleSize * t > 0;
    StdErrorSquare(MaxLevels(s.attributes, 1), s');
    QuotientAtMost(MaxLevels(s.attributes, 1) as real, InformationWeight(s'), TargetSE * TargetSE);
    TargetWeight(s, t);
  }
}
