/** The MaxDiff formulas of utils/calculations.ts: exposure frequency, the standard
    error and pairwise depth, the four-tier validation, and the screen optimizer
    that inverts the frequency for the target of 4 exposures per item. */
module MaxDiff {
  import opened Types
  import opened Numeric

  /** The frequency the screen optimizer aims for. */
  const TargetFrequency: real := 4.0

  /** Average number of times each item is shown: screens times items per screen,
      shared over the items; 0 for an empty item list instead of a division by zero. */
  function Frequency(s: MaxDiffState): (f: real)
    ensures s.totalItems == 0 ==> f == 0.0
    ensures s.totalItems != 0 ==> f * s.totalItems as real == s.nScreens as real * s.itemsPerScreen as real
  {
    if s.totalItems == 0 then 0.0
    else s.nScreens as real * s.itemsPerScreen as real / s.totalItems as real
  }

  /** The standard error of the aggregate utilities and the average pairwise depth. */
  datatype Metrics = Metrics(stdError: StdError, pairwiseDepth: real)

  /** The two metrics of a design at a given frequency. */
  function AdvancedMetrics(s: MaxDiffState, frequency: real): (m: Metrics)
    ensures m.stdError.SqrtOf? && m.stdError.square >= 0.0
    ensures s.sampleSize as real * frequency <= 0.0 ==> m.stdError.square == 0.0
    ensures s.sampleSize as real * frequency > 0.0 ==>
              m.stdError.square * (s.sampleSize as real * frequency) == 1.0
    ensures 0 <= s.totalItems <= 1 ==> m.pairwiseDepth == 0.0
    ensures !(0 <= s.totalItems <= 1) ==>
              m.pairwiseDepth * (s.totalItems * (s.totalItems - 1)) as real
              == (s.nScreens * s.itemsPerScreen * (s.itemsPerScreen - 1)) as real
  {
    Metrics(ExposureStdError(s.sampleSize, frequency), PairwiseDepth(s))
  }

  /** One over the square root of the total item exposures (sample size times
      frequency), 0 when there are none. */
  function ExposureStdError(sampleSize: int, frequency: real): (e: StdError)
    ensures e.SqrtOf? && e.square >= 0.0
    ensures sampleSize as real * frequency <= 0.0 ==> e.square == 0.0
    ensures sampleSize as real * frequency > 0.0 ==> e.square * (sampleSize as real * frequency) == 1.0
  {
    var totalItemExposures := sampleSize as real * frequency;
    if totalItemExposures > 0.0 then SqrtOf(1.0 / totalItemExposures) else SqrtOf(0.0)
  }

  /** How often any two items are expected to meet: 0 when totalItems*(totalItems-1)
      <= 0, which for an integer happens exactly when there are 0 or 1 items. */
  function PairwiseDepth(s: MaxDiffState): (d: real)
    ensures 0 <= s.totalItems <= 1 ==> d == 0.0
    ensures !(0 <= s.totalItems <= 1) ==>
              d * (s.totalItems * (s.totalItems - 1)) as real
              == (s.nScreens * s.itemsPerScreen * (s.itemsPerScreen - 1)) as real
  {
    var numerator := s.nScreens * s.itemsPerScreen * (s.itemsPerScreen - 1);
    var denominator := s.totalItems * (s.totalItems - 1);
    NonPositiveProduct(s.totalItems);
    if denominator > 0 then numerator as real / denominator as real else 0.0
  }

  /** n*(n-1) <= 0 holds of an integer n exactly when n is 0 or 1. */
  lemma NonPositiveProduct(n: int)
    ensures n * (n - 1) <= 0 <==> 0 <= n <= 1
  {
    if n >= 2 {
      assert n * (n - 1) >= n * 1;
    } else if n < 0 {
      assert n * (n - 1) == (-n) * (1 - n);
    }
  }

  /** Pairwise depth is the frequency spread over the other items: each time an item
      is shown it meets itemsPerScreen - 1 of the other totalItems - 1 items. */
  lemma PairwiseDepthFromFrequency(s: MaxDiffState)
    requires !(0 <= s.totalItems <= 1)
    ensures PairwiseDepth(s) == Frequency(s) * (s.itemsPerScreen - 1) as real / (s.totalItems - 1) as real
  {
    DepthFromFrequency(PairwiseDepth(s), Frequency(s), s.nScreens, s.itemsPerScreen, s.totalItems);
  }

  /** The algebra behind PairwiseDepthFromFrequency, on the two defining equations:
      depth * K(K-1) = n * k(k-1) and f * K = n * k give depth = f * (k-1) / (K-1). */
  lemma DepthFromFrequency(depth: real, f: real, n: int, k: int, items: int)
    requires items != 0 && items != 1
    requires depth * (items * (items - 1)) as real == (n * k * (k - 1)) as real
    requires f * items as real == n as real * k as real
    ensures depth == f * (k - 1) as real / (items - 1) as real
  {
    ProductAsReal(items, items - 1);
    ProductAsReal(n * k, k - 1);
    ProductAsReal(n, k);
    QuotientOfProducts(depth, f, items as real, (items - 1) as real, (k - 1) as real,
                       (items * (items - 1)) as real, (n * k * (k - 1)) as real, (n * k) as real);
  }

  /** With c = t * u, e = p * km and f * t = p, depth * c = e gives depth = f * km / u. */
  lemma QuotientOfProducts(depth: real, f: real, t: real, u: real, km: real, c: real, e: real, p: real)
    requires t != 0.0 && u != 0.0
    requires c == t * u && e == p * km && depth * c == e && f * t == p
    ensures depth == f * km / u
  {
    assert (depth * u) * t == (f * km) * t;
    Cancel(depth * u, f * km, t);
    Cancel(depth, f * km / u, u);
  }

  /** A non-zero factor cancels: x * t == y * t implies x == y. */
  lemma Cancel(x: real, y: real, t: real)
    requires t != 0.0 && x * t == y * t
    ensures x == y
  {
    assert (x - y) * t == 0.0;
  }

  /** More respondents at the same positive frequency never raise the standard error. */
  lemma StdErrorShrinksWithSample(n1: int, n2: int, frequency: real)
    requires frequency > 0.0 && 0 < n1 <= n2
    ensures ExposureStdError(n2, frequency).AtMost(ExposureStdError(n1, frequency))
  {
    var e1, e2 := n1 as real * frequency, n2 as real * frequency;
    assert 0.0 < e1 <= e2;
    assert 1.0 / e2 <= 1.0 / e1;
  }

  /** The four tiers, evaluated low to high: Critical below 2.5, Poor below 3.0,
      Acceptable below 4.0, Excellent from 4.0 on. */
  function ValidateMaxDiffDesign(frequency: real): (v: ValidationResult)
    ensures v.status == Critical <==> frequency < 2.5
    ensures v.status == Poor <==> 2.5 <= frequency < 3.0
    ensures v.status == Acceptable <==> 3.0 <= frequency < 4.0
    ensures v.status == Excellent <==> 4.0 <= frequency
    ensures v.score == [15, 45, 75, 98][v.status.Rank()]
  {
    if frequency < 2.5 then
      ValidationResult(Critical, "Don't bother! Exposures are too low for valid results.", 15)
    else if frequency < 3.0 then
      ValidationResult(Poor, "Danger. Results may be unstable.", 45)
    else if frequency < 4.0 then
      ValidationResult(Acceptable, "Acceptable. Meets minimum industry standards.", 75)
    else
      ValidationResult(Excellent, "Excellent. High-quality design.", 98)
  }

  /** A higher frequency never gives a worse tier or a lower score. */
  lemma ValidationMonotone(f1: real, f2: real)
    requires f1 <= f2
    ensures ValidateMaxDiffDesign(f1).status.Rank() <= ValidateMaxDiffDesign(f2).status.Rank()
    ensures ValidateMaxDiffDesign(f1).score <= ValidateMaxDiffDesign(f2).score
  {
  }

  /** The tier boundaries are half-open: each threshold belongs to the tier above it. */
  lemma ValidationBoundaries()
    ensures ValidateMaxDiffDesign(2.49999).status == Critical
    ensures ValidateMaxDiffDesign(2.5).status == Poor
    ensures ValidateMaxDiffDesign(3.0).status == Acceptable
    ensures ValidateMaxDiffDesign(3.99999).status == Acceptable
    ensures ValidateMaxDiffDesign(4.0).status == Excellent
  {
  }

  /** Solves Frequency = 4.0 for the number of screens, rounding up. A zero
      itemsPerScreen, where JavaScript yields Infinity or NaN, is excluded. */
  function OptimizeMaxDiffScreens(totalItems: int, itemsPerScreen: int): (n: int)
    requires itemsPerScreen != 0
    ensures (n - 1) as real < TargetFrequency * totalItems as real / itemsPerScreen as real <= n as real
  {
    Ceil(TargetFrequency * totalItems as real / itemsPerScreen as real)
  }

  /** The optimizer inverts the frequency: with the returned number of screens the
      frequency reaches 4.0 and stays below 4.0 + itemsPerScreen/totalItems, and one
      screen fewer falls below 4.0. */
  lemma OptimizeScreensMeetsTarget(s: MaxDiffState)
    requires s.totalItems > 0 && s.itemsPerScreen > 0
    ensures Frequency(s.(nScreens := OptimizeMaxDiffScreens(s.totalItems, s.itemsPerScreen))) >= TargetFrequency
    ensures Frequency(s.(nScreens := OptimizeMaxDiffScreens(s.totalItems, s.itemsPerScreen)))
            < TargetFrequency + s.itemsPerScreen as real / s.totalItems as real
    ensures Frequency(s.(nScreens := OptimizeMaxDiffScreens(s.totalItems, s.itemsPerScreen) - 1)) < TargetFrequency
  {
    var n := OptimizeMaxDiffScreens(s.totalItems, s.itemsPerScreen);
    ScreensBracket(s, n);
  }

  /** A number of screens n with n - 1 < 4 * totalItems / itemsPerScreen <= n reaches the
      target frequency, by less than one screen's worth, and n - 1 screens do not. */
  lemma ScreensBracket(s: MaxDiffState, n: int)
    requires s.totalItems > 0 && s.itemsPerScreen > 0
    requires (n - 1) as real < TargetFrequency * s.totalItems as real / s.itemsPerScreen as real <= n as real
    ensures Frequency(s.(nScreens := n)) >= TargetFrequency
    ensures Frequency(s.(nScreens := n)) < TargetFrequency + s.itemsPerScreen as real / s.totalItems as real
    ensures Frequency(s.(nScreens := n - 1)) < TargetFrequency
  {
    var t, k := s.totalItems as real, s.itemsPerScreen as real;
    var above, below := n as real * k, (n - 1) as real * k;
    QuotientAtMost(TargetFrequency * t, k, n as real);
    QuotientAtMost(TargetFrequency * t, k, (n - 1) as real);
    StepBracket(above, below, k, t, TargetFrequency);
    FrequencyWithScreens(s, n);
    FrequencyWithScreens(s, n - 1);
  }

  /** Two totals one step k apart on either side of c * t, divided by t > 0. */
  lemma StepBracket(above: real, below: real, k: real, t: real, c: real)
    requires t > 0.0 && above == below + k && above >= c * t && below < c * t
    ensures above / t >= c && below / t < c && above / t < c + k / t
  {
    QuotientAtLeast(above, t, c);
    QuotientAtLeast(below, t, c);
    assert above / t == below / t + k / t;
  }

  /** The frequency of a design with the given number of screens. */
  lemma FrequencyWithScreens(s: MaxDiffState, screens: int)
    requires s.totalItems > 0
    ensures Frequency(s.(nScreens := screens)) == screens as real * s.itemsPerScreen as real / s.totalItems as real
  {
  }

  /** No smaller number of screens reaches the target frequency. */
  lemma OptimizeScreensIsLeast(s: MaxDiffState, screens: int)
    requires s.totalItems > 0 && s.itemsPerScreen > 0
    requires Frequency(s.(nScreens := screens)) >= TargetFrequency
    ensures screens >= OptimizeMaxDiffScreens(s.totalItems, s.itemsPerScreen)
  {
    var t, k := s.totalItems as real, s.itemsPerScreen as real;
    FrequencyWithScreens(s, screens);
    QuotientAtLeast(screens as real * k, t, 4.0);
    QuotientAtMost(4.0 * t, k, screens as real);
    CeilIsLeast(TargetFrequency * t / k, screens);
  }
}
