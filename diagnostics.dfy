/** The built-in logic check of utils/calculations.ts: two known answers that the
    "Logic Check" dialog recomputes, and how much of the formulas they pin down. */
module Diagnostics {
  import opened Types
  import opened Numeric
  import opened MaxDiff
  import opened Conjoint

  /** How far the recomputed MaxDiff frequency may stray from 4. */
  const Tolerance: real := 0.01

  /** 10 screens of 4 items over 10 items. */
  function FrequencyCase(nScreens: int): (s: MaxDiffState)
    ensures Frequency(s) == nScreens as real * 0.4
  {
    MaxDiffState(10, 4, nScreens, 100)
  }

  /** One three-level attribute, 10 tasks of 3 concepts. */
  function OrmeCase(): (s: ConjointState)
    ensures MaxLevels(s.attributes, 0) == 3 && s.nTasks * s.conceptsPerTask == 30
  {
    ConjointState([Attribute("1", "A", 3)], 10, 3, 100, 0, Complete)
  }

  /** The self-test: the MaxDiff frequency of 10 screens of 4 items over 10 items
      is 4 (within the tolerance), and Orme's rule for one three-level attribute,
      10 tasks and 3 concepts asks for 50 respondents. Both hold, so it passes. */
  function RunSystemDiagnostics(): (ok: bool)
    ensures ok
  {
    var mdTest := Frequency(FrequencyCase(10));
    if Abs(mdTest - 4.0) > Tolerance then false
    else
      OrmeExample();
      var cbcTest := CalculateOrmeMinSample(OrmeCase());
      if cbcTest != 50 then false
      else true
  }

  /** The frequency check accepts exactly the 10-screen design: one screen more
      or less moves the frequency by 0.4. */
  lemma FrequencyCheckPinsScreens(nScreens: int)
    ensures Abs(Frequency(FrequencyCase(nScreens)) - 4.0) <= Tolerance <==> nScreens == 10
  {
    var f := Frequency(FrequencyCase(nScreens));
    assert f * 10.0 == nScreens as real * 4.0;
    if nScreens >= 11 {
      assert f >= 4.4;
    } else if nScreens <= 9 {
      assert f <= 3.6;
    }
  }

  /** The Orme check cannot tell the constant 500 from any constant between 491
      and 500: ceil(3c/30) is 50 exactly when 490 < c <= 500. */
  lemma OrmeCheckConstants(c: int)
    ensures RuleOfThumb(c, 3, 10, 3) == 50 <==> 490 < c <= 500
  {
    var m := RuleOfThumb(c, 3, 10, 3);
    assert m * 30 >= c * 3 && (m - 1) * 30 < c * 3;
  }
}
