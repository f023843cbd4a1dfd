# MaxDiff and CBC design calculator — formula model

This project models the formula library of a survey-design calculator,
`utils/calculations.ts`. The calculator sizes two kinds of market-research studies.

- **MaxDiff (best-worst scaling).** A MaxDiff study shows `itemsPerScreen` of
  `totalItems` items on each of `nScreens` screens. The library computes:
  - the exposure frequency;
  - an aggregate standard error and the average pairwise depth;
  - a four-tier validation of the frequency;
  - the number of screens that reaches 4 exposures per item.
- **Choice-based conjoint (CBC).** A CBC study shows `conceptsPerTask` concepts
  in each of `nTasks` tasks to `sampleSize` respondents. The concepts are built
  from attributes with a number of levels. The library computes:
  - the efficiency factor of the design method;
  - Orme's rule-of-thumb minimum sample, for main effects and for two-way
    interactions;
  - a standard error per attribute;
  - a four-tier classification of the sample against Orme's minimum;
  - the number of tasks that brings every attribute to a standard error of 0.05.
- **Self-test.** The library also has a built-in self-test with two known answers.

The files are:

- `types.dfy` (module `Types`): the records of `types.ts`.
- `numeric.dfy` (module `Numeric`): `Math.ceil`, `Math.max`, `Math.abs`, the
  clamp, a few facts about real division, and the representation of standard errors.
- `maxdiff.dfy` (module `MaxDiff`), `conjoint.dfy` (module `Conjoint`) and
  `diagnostics.dfy` (module `Diagnostics`): the three groups of formulas.

The user interface passes every count through `parseInt`. So every count is an
integer and is modelled as `int`. A count may be zero or negative, except the number
of levels of an attribute, which may be negative but never 0 (the input turns 0
into 2). JavaScript
numbers are modelled as exact `real`s. `Math.sqrt` has no exact real
counterpart. So a standard error is held as its square (`StdError.SqrtOf`), or
as `NaN` where JavaScript takes the square root of a negative number.

`calculateInteractionSample` updates a running maximum in a nested loop. It is
modelled as the method `Conjoint.CalculateInteractionSample`, with loop
invariants, and proved equal to the pure function `Conjoint.MaxInteractionCells`.
Every other operation is an expression over its inputs and is modelled as a
function.

Replacing 500 in Orme's rule by any constant from 491 to 500 leaves the
self-test passing, since ceil(3c/30) = 50 exactly for 490 < c ≤ 500
(`Diagnostics.OrmeCheckConstants`).

## Model

| member | source | states |
|---|---|---|
| MaxDiff.Frequency | utils/calculations.ts:5-9 | 0 for no items; otherwise frequency × totalItems equals nScreens × itemsPerScreen |
| MaxDiff.AdvancedMetrics | utils/calculations.ts:11-24 | squared standard error is 1/exposures when sampleSize × frequency > 0, else 0; pairwise depth is 0 for 0 or 1 items, the only integers for which the guard at line 21 fails; otherwise depth × K(K−1) = nScreens × k(k−1) |
| MaxDiff.ExposureStdError | utils/calculations.ts:15-16 | the squared standard error is non-negative; it is 1/exposures when sampleSize × frequency > 0, else 0 |
| MaxDiff.PairwiseDepth | utils/calculations.ts:19-21 | 0 for 0 or 1 items, the only integers for which the guard at line 21 fails; otherwise depth × K(K−1) = nScreens × k(k−1) |
| MaxDiff.NonPositiveProduct | utils/calculations.ts:20-21 | the guard totalItems × (totalItems − 1) > 0 fails for exactly 0 and 1 items |
| MaxDiff.PairwiseDepthFromFrequency | utils/calculations.ts:19-21 | for every item count other than 0 and 1 (negative counts included), pairwise depth is frequency × (k − 1)/(K − 1) |
| MaxDiff.StdErrorShrinksWithSample | utils/calculations.ts:15-16 | at a fixed positive frequency and from a sample of 1 on, a larger sample never gives a larger standard error; the step from sample 0 to 1 can raise it, since the guard at line 16 gives 0 for no exposures |
| MaxDiff.ValidateMaxDiffDesign | utils/calculations.ts:26-36 | Critical iff f < 2.5, Poor iff 2.5 ≤ f < 3, Acceptable iff 3 ≤ f < 4, Excellent iff f ≥ 4; scores 15/45/75/98 by tier |
| MaxDiff.ValidationMonotone | utils/calculations.ts:26-36 | a higher frequency never gives a lower tier or score |
| MaxDiff.ValidationBoundaries | utils/calculations.ts:27-33 | each threshold belongs to the tier above it (2.49999, 2.5, 3.0, 3.99999, 4.0) |
| MaxDiff.OptimizeMaxDiffScreens | utils/calculations.ts:38-41 | the result n satisfies n − 1 < 4 × totalItems / itemsPerScreen ≤ n |
| MaxDiff.OptimizeScreensMeetsTarget | utils/calculations.ts:38-41 | for positive totalItems K and itemsPerScreen k: with n screens the frequency is at least 4 and below 4 + k/K; with n − 1 screens it is below 4 |
| MaxDiff.OptimizeScreensIsLeast | utils/calculations.ts:38-41 | for positive totalItems and itemsPerScreen, any number of screens that reaches frequency 4 is at least the optimizer's result |
| Numeric.Ceil | utils/calculations.ts:40 | Math.ceil: the integer in [x, x + 1) |
| Numeric.CeilQuotient | utils/calculations.ts:63 | for a positive divisor, ceil(a/b) × b ≥ a and (ceil(a/b) − 1) × b < a |
| Numeric.Max | utils/calculations.ts:61 | Math.max of two numbers (also at line 140) is at least both and equal to one of them |
| Numeric.Abs | utils/calculations.ts:162 | Math.abs is non-negative and equal to x or −x |
| Numeric.Clamp | utils/calculations.ts:97 | for lo ≤ hi, Math.min(Math.max(x, lo), hi) lies in [lo, hi], is x inside the range and the nearer bound outside it |
| Conjoint.EfficiencyFactor | utils/calculations.ts:45-55 | each factor lies in [0.8, 1]; it is 1 exactly for complete and 0.8 exactly for random |
| Conjoint.EfficiencyOrder | utils/calculations.ts:48-53 | the factors are distinct, ordered random < shortcut < balanced < complete |
| Conjoint.MaxLevels | utils/calculations.ts:61 | Math.max of the level counts and a floor is at least the floor |
| Conjoint.MaxLevelsIsMax | utils/calculations.ts:61 | it is at least every level count, and it is the floor or some attribute's level count |
| Conjoint.RuleOfThumb | utils/calculations.ts:62-63 | for a positive divisor, the least m with m × nTasks × conceptsPerTask ≥ constant × cells |
| Conjoint.CalculateOrmeMinSample | utils/calculations.ts:57-64 | 0 for no tasks, no concepts or no attributes; otherwise, for a positive tasks × concepts, the least m with m × nTasks × conceptsPerTask ≥ 500 × maxLevels |
| Conjoint.OrmeMinSamplePositive | utils/calculations.ts:57-64 | positive tasks, concepts and some attribute with levels give a minimum of at least 1 |
| Conjoint.OrmeExample | utils/calculations.ts:57-64 | one 3-level attribute, 10 tasks and 3 concepts give 50 |
| Conjoint.MaxInteractionCells | utils/calculations.ts:70-78 | the running maximum starts at 0, so it is never negative |
| Conjoint.MaxProductWith | utils/calculations.ts:72-77 | the inner loop's maximum over j of levels[i] × levels[j], starting from 0, is never negative |
| Conjoint.MaxInteractionCellsIsMax | utils/calculations.ts:70-78 | at least every product levels[i] × levels[j] with i < j, and equal to 0 or to one such product |
| Conjoint.MaxInteractionCellsUnique | utils/calculations.ts:70-78 | those three properties determine the maximum over pairs |
| Conjoint.InteractionExample | utils/calculations.ts:70-78 | levels 3, 4, 2 give 12 cells |
| Conjoint.CalculateInteractionSample | utils/calculations.ts:66-82 | (0, 0) for fewer than two attributes; otherwise the loop's maximum equals the maximum over all pairs, and the sample is the rule of thumb over it |
| Conjoint.NoneAsDecimal | utils/calculations.ts:97 | the none share lies in [0, 0.99]; it is percentNone/100 inside [0, 99], 0 below and 0.99 above |
| Conjoint.Observations | utils/calculations.ts:100 | sampleSize × nTasks is 0 exactly when the sample or the task count is 0, the case the guard at line 103 catches |
| Conjoint.AnswerWeight | utils/calculations.ts:86-98 | efficiency × (1 − none) lies in (0, 1] |
| Conjoint.InformationWeight | utils/calculations.ts:100-108 | positive observations give positive information |
| Conjoint.AttributeStdError | utils/calculations.ts:100-108 | 0 when sampleSize × nTasks = 0; NaN exactly for negative observations, or for negative levels with observations; otherwise square × information weight = levels |
| Conjoint.StdErrorSquare | utils/calculations.ts:106-108 | with positive sampleSize × nTasks and non-negative levels, the squared standard error is levels / (sampleSize × nTasks × efficiency × (1 − none)) |
| Conjoint.StdErrorGrowsWithLevels | utils/calculations.ts:106 | with no negative observations, more (non-negative) levels never give a smaller standard error |
| Conjoint.StdErrorShrinksWithObservations | utils/calculations.ts:100-106 | from one observation on, more observations never give a larger standard error; the step from 0 to 1 observation can raise it, since the guard at line 103 gives 0 at 0 observations |
| Conjoint.StdErrorInflation | utils/calculations.ts:92-98 | with positive sampleSize × nTasks and non-negative levels, a less efficient design method or a larger none share never gives a smaller standard error |
| Conjoint.CalculateAttributeStats | utils/calculations.ts:102-114 | one entry per attribute, in order, with id, name and levels kept and the attribute's standard error; all 0 when sampleSize × nTasks = 0 |
| Conjoint.CalculateCBCEfficiency | utils/calculations.ts:117-132 | Critical, "Invalid Configuration", 0 when the minimum is 0; otherwise scores 20/50/80/100 by tier |
| Conjoint.CBCEfficiencyTiers | utils/calculations.ts:121-131 | with minimum m > 0 and sample n: Critical iff 10n < 7m, Poor iff 7m ≤ 10n < 10m, Acceptable iff m ≤ n and 2n < 3m, Excellent iff 3m ≤ 2n |
| Conjoint.CBCEfficiencyAtMinimum | utils/calculations.ts:125-128 | for a non-zero minimum, a sample equal to the minimum is Acceptable with score 80 |
| Conjoint.CBCEfficiencyMonotone | utils/calculations.ts:117-132 | for a positive minimum, a larger sample never gives a lower tier or score |
| Conjoint.TasksDenominator | utils/calculations.ts:151 | the optimizer's denominator has the sign of the sample size, so it is 0 only for a zero sample |
| Conjoint.OptimizeCBCTasks | utils/calculations.ts:134-156 | 0 for a zero sample, at least 1 for a positive sample, at most 0 for a negative sample |
| Conjoint.TargetWeight | utils/calculations.ts:145-151 | 0.05² × information weight of t tasks = t × denominator, the rearrangement the optimizer relies on |
| Conjoint.OptimizeTasksMeetsTarget | utils/calculations.ts:145-155 | for a positive sample, with the optimized tasks, every non-negative level count up to the largest (at least 1) has a standard error of at most 0.05 |
| Conjoint.OptimizedStatsMeetTarget | utils/calculations.ts:134-156 | for a positive sample, with the optimized tasks, every attribute statistic with non-negative levels has a standard error of at most 0.05 |
| Conjoint.OptimizeTasksIsLeast | utils/calculations.ts:145-155 | for a positive sample, any positive number of tasks that brings the largest level count to 0.05 is at least the optimizer's result |
| Diagnostics.FrequencyCase | utils/calculations.ts:161 | the fixed MaxDiff vector (10 items, 4 per screen, sample 100) with n screens has frequency 0.4 n |
| Diagnostics.OrmeCase | utils/calculations.ts:165-172 | the fixed CBC vector has largest level count 3 and 10 × 3 = 30 concepts per respondent |
| Diagnostics.RunSystemDiagnostics | utils/calculations.ts:159-176 | the self-test returns true |
| Diagnostics.FrequencyCheckPinsScreens | utils/calculations.ts:160-162 | the frequency check, within 0.01 of 4, accepts exactly nScreens = 10 |
| Diagnostics.OrmeCheckConstants | utils/calculations.ts:164-173 | the Orme check returns 50 exactly for rule constants c with 490 < c ≤ 500 |

## Left out

- Floating point: the formulas are modelled on exact reals. Rounding, such as
  `Math.pow(0.05, 2)` not being exactly 0.0025, is not modelled.
- Conjoint.AttributeStdError: a standard error is held as its square, because
  `Math.sqrt` values cannot be written as exact reals. Order between standard
  errors (`StdError.AtMost`) is order between the squares, which is the same
  order on non-negative numbers.
- MaxDiff.ExposureStdError: the standard error is held as its square, for the
  same reason.
- MaxDiff.AdvancedMetrics: its standard error is the one of
  MaxDiff.ExposureStdError, held as its square.
- MaxDiff.OptimizeMaxDiffScreens: requires itemsPerScreen ≠ 0. In JavaScript that
  case yields Infinity or NaN, which the model does not represent.
- Conjoint.CalculateInteractionSample: requires nTasks × conceptsPerTask ≠ 0 when
  there are two attributes or more. In JavaScript the division there is
  unguarded and yields Infinity or NaN.
- Conjoint.OptimizeCBCTasks: the `denominator === 0 → 1` branch is modelled. On
  exact reals it is unreachable, because the denominator is 0 only for a zero
  sample, which returns earlier (`Conjoint.TasksDenominator`).
- The caller-side `Math.max(optimalTasks, 1)` clamp in
  components/ConjointModule.tsx is user-interface behaviour and is not part of
  this model. components/MaxDiffModule.tsx:22-23 uses the screen optimizer's
  result without a clamp.
- The React components, the colour tables of components/ui/StatusBadge.tsx, the
  random attribute ids, and the 1500 ms delay of the logic-check dialog are not
  part of this model. They are presentation, randomness and timers, with no
  formula logic.
- utils/export.ts is not part of this model. It formats a text report with a
  locale-dependent timestamp and downloads it through the browser, which is I/O.
- `DesignMethod` has exactly four constructors here. So the `default` branch of
  the efficiency switch (an unknown method string) cannot occur.
