/**
 * The motion pattern library of config.py: each pattern maps a phase in
 * [0, 1) of one motion cycle to a normalised displacement in [0, 1].
 * Phases are Dafny reals; the source's floats are taken to be exact.
 */
module Patterns {

  /** pattern_1: a fast fall from 1 to 0 over the first half of the cycle,
      a slow rise to 0.3 over the next quarter, then a faster rise back to 1. */
  function Pattern1(progress: real): (r: real)
    ensures 0.0 <= progress <= 1.0 ==> 0.0 <= r <= 1.0
  {
    if progress < 0.5 then
      1.0 - progress / 0.5
    else if progress < 0.75 then
      (progress - 0.5) / 0.25 * 0.3
    else
      0.3 + (progress - 0.75) / 0.25 * 0.7
  }

  /** pattern_1_inverted: pattern_1 mirrored about one half. */
  function Pattern1Inverted(progress: real): (r: real)
    ensures 0.0 <= progress <= 1.0 ==> 0.0 <= r <= 1.0
  {
    1.0 - Pattern1(progress)
  }

  /** pattern_3: a linear rise to the peak at 0.8, then a steep linear fall. */
  function Pattern3(progress: real): (r: real)
    ensures 0.0 <= progress <= 1.0 ==> 0.0 <= r <= 1.0
  {
    if progress < 0.8 then progress / 0.8 else 1.0 - (progress - 0.8) / 0.2
  }

  /** pattern_4: a linear rise to the peak at 0.7, then a linear fall. */
  function Pattern4(progress: real): (r: real)
    ensures 0.0 <= progress <= 1.0 ==> 0.0 <= r <= 1.0
  {
    if progress < 0.7 then progress / 0.7 else 1.0 - (progress - 0.7) / 0.3
  }

  /** pattern_4_inverted: pattern_4 mirrored about one half. */
  function Pattern4Inverted(progress: real): (r: real)
    ensures 0.0 <= progress <= 1.0 ==> 0.0 <= r <= 1.0
  {
    1.0 - Pattern4(progress)
  }

  /** pattern_5: a linear rise to the peak at 0.6, then a linear fall. */
  function Pattern5(progress: real): (r: real)
    ensures 0.0 <= progress <= 1.0 ==> 0.0 <= r <= 1.0
  {
    if progress < 0.6 then progress / 0.6 else 1.0 - (progress - 0.6) / 0.4
  }

  /** The quadratic easing helpers local to pattern_6. */
  function EaseInQuad(t: real): real {
    t * t
  }

  function EaseOutQuad(t: real): real {
    1.0 - (1.0 - t) * (1.0 - t)
  }

  /** On [0, 1] a square stays in [0, 1] and never exceeds its argument. */
  lemma UnitSquare(t: real)
    ensures 0.0 <= t <= 1.0 ==> 0.0 <= t * t <= t
  {
    if 0.0 <= t <= 1.0 {
      assert t * t <= t * 1.0;
    }
  }

  /** Squaring is strictly increasing on the non-negative reals. */
  lemma SquareStrictlyIncreasing(a: real, b: real)
    requires 0.0 <= a < b
    ensures a * a < b * b
  {
    var d, e := b - a, b + a;
    assert d > 0.0 && e > 0.0;
    assert d * e > 0.0;
    assert b * b - a * a == d * e;
  }

  /** pattern_6: an eased fall 1 - t^2 over [0, 0.4) and an eased rise
      1 - (1 - t)^2 over [0.4, 1), each with its segment-local t in [0, 1). */
  function Pattern6(progress: real): (r: real)
    ensures 0.0 <= progress <= 1.0 ==> 0.0 <= r <= 1.0
  {
    if progress < 0.4 then
      var t := progress / 0.4;
      UnitSquare(t);
      1.0 - EaseInQuad(t)
    else
      var t := (progress - 0.4) / (1.0 - 0.4);
      UnitSquare(1.0 - t);
      EaseOutQuad(t)
  }

  /** The fractional part `x % 1.0` of a Python float (floor semantics). */
  function Frac(x: real): (r: real)
    ensures 0.0 <= r < 1.0
    ensures (x - r).Floor as real == x - r
  {
    x - x.Floor as real
  }

  /** The cycle duration fixed inside pattern_constant_freq. */
  const ConstantFreqCycle: real := 0.65

  /** pattern_constant_freq: ignores the reported progress and drives
      pattern_5 from the clock. The source reads `time.monotonic()`; here the
      clock reading is the parameter `now`. */
  function PatternConstantFreq(progress: real, now: real): (r: real)
    ensures 0.0 <= r <= 1.0
  {
    Pattern5(Frac(now / ConstantFreqCycle))
  }

  // ---------------------------------------------------------------------
  // Shape lemmas
  // ---------------------------------------------------------------------

  /** pattern_1 starts at 1, reaches 0 at the half, 0.3 at three quarters and
      is back at 1 at the end of the cycle: each segment joins the next. */
  lemma Pattern1Anchors()
    ensures Pattern1(0.0) == 1.0 && Pattern1(0.5) == 0.0
    ensures Pattern1(0.75) == 0.3 && Pattern1(1.0) == 1.0
  {
  }

  /** pattern_1 falls strictly over [0, 0.5] and rises strictly over [0.5, 1]. */
  lemma Pattern1Monotone(p: real, q: real)
    requires 0.0 <= p < q <= 1.0
    ensures q <= 0.5 ==> Pattern1(q) < Pattern1(p)
    ensures 0.5 <= p ==> Pattern1(p) < Pattern1(q)
  {
  }

  /** pattern_1 has no jumps: it changes by at most 2.8 times the change in
      phase (its steepest leg is the last one), so it is continuous at 0.5 and
      0.75. */
  lemma Pattern1Lipschitz(p: real, q: real)
    requires 0.0 <= p <= q <= 1.0
    ensures -2.8 * (q - p) <= Pattern1(q) - Pattern1(p) <= 2.8 * (q - p)
  {
  }

  /** Both inverted patterns are the mirror image 1 - f of their base pattern:
      the two sum to 1 at every phase, so the inverted pattern peaks where the
      base pattern bottoms out. */
  lemma InvertedPatternsMirror(p: real)
    ensures Pattern1Inverted(p) + Pattern1(p) == 1.0
    ensures Pattern4Inverted(p) + Pattern4(p) == 1.0
    ensures Pattern1Inverted(0.5) == 1.0 && Pattern1Inverted(0.0) == 0.0
    ensures Pattern4Inverted(0.7) == 0.0 && Pattern4Inverted(0.0) == 1.0
  {
  }

  /** pattern_3, pattern_4 and pattern_5 reach their maximum 1 exactly at their
      peak (0.8, 0.7, 0.6) and nowhere else. */
  lemma PeakPatternsMaximum(p: real)
    ensures Pattern3(p) <= 1.0 && (Pattern3(p) == 1.0 <==> p == 0.8)
    ensures Pattern4(p) <= 1.0 && (Pattern4(p) == 1.0 <==> p == 0.7)
    ensures Pattern5(p) <= 1.0 && (Pattern5(p) == 1.0 <==> p == 0.6)
  {
  }

  /** The three peak patterns start at 0, rise strictly up to the peak, then
      fall strictly and reach 0 again at the end of the cycle. */
  lemma PeakPatternsShape(p: real, q: real)
    requires 0.0 <= p < q <= 1.0
    ensures Pattern3(0.0) == 0.0 && Pattern3(1.0) == 0.0
    ensures Pattern4(0.0) == 0.0 && Pattern4(1.0) == 0.0
    ensures Pattern5(0.0) == 0.0 && Pattern5(1.0) == 0.0
    ensures q <= 0.8 ==> Pattern3(p) < Pattern3(q)
    ensures 0.8 <= p ==> Pattern3(q) < Pattern3(p)
    ensures q <= 0.7 ==> Pattern4(p) < Pattern4(q)
    ensures 0.7 <= p ==> Pattern4(q) < Pattern4(p)
    ensures q <= 0.6 ==> Pattern5(p) < Pattern5(q)
    ensures 0.6 <= p ==> Pattern5(q) < Pattern5(p)
  {
  }

  /** pattern_6 starts and ends at 1 and touches 0 at 0.4, where its two eased
      segments meet. */
  lemma Pattern6Anchors()
    ensures Pattern6(0.0) == 1.0 && Pattern6(0.4) == 0.0 && Pattern6(1.0) == 1.0
  {
  }

  /** pattern_6 falls strictly from 1 toward 0 on [0, 0.4] and rises strictly
      from 0 toward 1 on [0.4, 1]. */
  lemma {:induction false} Pattern6Monotone(p: real, q: real)
    requires 0.0 <= p < q <= 1.0
    ensures q <= 0.4 ==> Pattern6(q) < Pattern6(p)
    ensures 0.4 <= p ==> Pattern6(p) < Pattern6(q)
  {
    if q <= 0.4 {
      if q < 0.4 {
        SquareStrictlyIncreasing(p / 0.4, q / 0.4);
      } else {
        UnitSquare(p / 0.4);
        assert p / 0.4 < 1.0;
        SquareStrictlyIncreasing(p / 0.4, 1.0);
      }
    }
    if 0.4 <= p {
      var tp, tq := (p - 0.4) / (1.0 - 0.4), (q - 0.4) / (1.0 - 0.4);
      assert tp < tq <= 1.0;
      SquareStrictlyIncreasing(1.0 - tq, 1.0 - tp);
    }
  }

  /** The constant-frequency pattern ignores the reported progress and repeats
      itself every 0.65 seconds of clock time. */
  lemma {:induction false} ConstantFreqIsClockDriven(p: real, q: real, now: real)
    ensures PatternConstantFreq(p, now) == PatternConstantFreq(q, now)
    ensures PatternConstantFreq(p, now + ConstantFreqCycle) == PatternConstantFreq(p, now)
  {
    var x := now / ConstantFreqCycle;
    assert (now + ConstantFreqCycle) / ConstantFreqCycle == x + 1.0;
    assert (x + 1.0).Floor == x.Floor + 1;
  }
}
