/** Schedule estimation in `generate()`: a delay driven by efficiency, lengthened
    when the budget falls short of the predicted cost, clamped to [15, 200] days,
    and the completion day it implies. */
module Schedule {
  import opened Numeric

  const BaseDelayDays: real := 60.0
  const MinDelayDays: real := 15.0
  const MaxDelayDays: real := 200.0

  /** `base_delay / max(efficiency_score, 0.6)`: the 0.6 floor caps it at 100 days. */
  function RawDelay(efficiency: real): (r: real)
    ensures 0.0 < r <= 100.0
  {
    BaseDelayDays / Max(efficiency, 0.6)
  }

  /** Days added for an underfunded project: the shortage fraction of the
      predicted cost, times 60; nothing when the budget covers the cost. */
  function ShortageDays(predictedCost: real, budget: int): (r: real)
    requires predictedCost > 0.0
    ensures r >= 0.0
    ensures r > 0.0 <==> (budget as real) < predictedCost
    ensures budget >= 0 ==> r <= 60.0
    ensures budget > 0 ==> r < 60.0
  {
    if (budget as real) < predictedCost then
      FractionBelowOne(predictedCost, budget as real);
      (predictedCost - budget as real) / predictedCost * 60.0
    else
      0.0
  }

  /** The delay of app.py:69-76 after the clamp `max(15, min(delay, 200))`. */
  function Delay(efficiency: real, predictedCost: real, budget: int): (r: real)
    requires predictedCost > 0.0
    ensures MinDelayDays <= r <= MaxDelayDays
  {
    Max(MinDelayDays, Min(RawDelay(efficiency) + ShortageDays(predictedCost, budget), MaxDelayDays))
  }

  /** `start_date + timedelta(days=int(delay))`, with dates as day numbers: the
      whole days of the delay, truncated. */
  function CompletionDay(startDay: int, delay: real): (day: int)
    requires delay >= 0.0
    ensures startDay <= day
    ensures (day - startDay) as real <= delay < (day - startDay + 1) as real
  {
    startDay + delay.Floor
  }

  /** The completion day lies between 15 and 200 days after the start. */
  lemma CompletionWindow(efficiency: real, predictedCost: real, budget: int, startDay: int)
    requires predictedCost > 0.0
    ensures var day := CompletionDay(startDay, Delay(efficiency, predictedCost, budget));
      startDay + 15 <= day <= startDay + 200
  {
  }

  /** With a non-negative budget the delay never passes 160 days, so the 200-day
      ceiling only ever applies when the budget is negative. */
  lemma CeilingNeedsNegativeBudget(efficiency: real, predictedCost: real, budget: int)
    requires predictedCost > 0.0
    ensures budget >= 0 ==> Delay(efficiency, predictedCost, budget) <= 160.0
    ensures Delay(efficiency, predictedCost, budget) == MaxDelayDays ==> budget < 0
  {
  }

  /** The shortage term weighs more the further the budget falls short. */
  lemma ShortageAntitoneInBudget(predictedCost: real, b1: int, b2: int)
    requires predictedCost > 0.0 && b1 <= b2
    ensures ShortageDays(predictedCost, b2) <= ShortageDays(predictedCost, b1)
  {
    if (b2 as real) < predictedCost {
      QuotientMonotone(predictedCost - b2 as real, predictedCost - b1 as real, predictedCost);
    }
  }

  /** Raising the budget never lengthens the delay. */
  lemma DelayAntitoneInBudget(efficiency: real, predictedCost: real, b1: int, b2: int)
    requires predictedCost > 0.0 && b1 <= b2
    ensures Delay(efficiency, predictedCost, b2) <= Delay(efficiency, predictedCost, b1)
  {
    ShortageAntitoneInBudget(predictedCost, b1, b2);
  }

  /** A higher efficiency score never lengthens the raw delay. */
  lemma RawDelayAntitone(e1: real, e2: real)
    requires e1 <= e2
    ensures RawDelay(e2) <= RawDelay(e1)
  {
    var m1, m2 := Max(e1, 0.6), Max(e2, 0.6);
    assert BaseDelayDays / m1 - BaseDelayDays / m2 == BaseDelayDays * (m2 - m1) / (m1 * m2);
  }

  /** With a non-negative budget, a lower predicted cost never adds shortage days. */
  lemma ShortageMonotoneInCost(c1: real, c2: real, budget: int)
    requires 0.0 < c1 <= c2 && budget >= 0
    ensures ShortageDays(c1, budget) <= ShortageDays(c2, budget)
  {
    if (budget as real) < c1 {
      var b := budget as real;
      ShortfallFraction(c1, b);
      ShortfallFraction(c2, b);
      assert b / c2 <= b / c1 by {
        assert b / c1 - b / c2 == b * (c2 - c1) / (c1 * c2);
        assert b * (c2 - c1) >= 0.0;
      }
    }
  }

  /** With a non-negative budget, a more efficient and cheaper project is never
      scheduled later. */
  lemma DelayImprovesWithEfficiency(e1: real, e2: real, c1: real, c2: real, budget: int)
    requires e1 <= e2 && 0.0 < c2 <= c1 && budget >= 0
    ensures Delay(e2, c2, budget) <= Delay(e1, c1, budget)
  {
    RawDelayAntitone(e1, e2);
    ShortageMonotoneInCost(c2, c1, budget);
  }

  /** Bounds on the shortage fraction `(cost - budget) / cost` that `ShortageDays` scales. */
  lemma FractionBelowOne(c: real, b: real)
    requires 0.0 < c && b < c
    ensures 0.0 < (c - b) / c
    ensures b >= 0.0 ==> (c - b) / c <= 1.0
    ensures b > 0.0 ==> (c - b) / c < 1.0
  {
  }

}
