/** The report fields of `generate()`: risk score, cost and time breakdowns, the
    workforce recommendation and the required-workers estimate. */
module Report {
  import opened Numeric

  /** The budget part of the risk blend: the cost overrun fraction times 40,
      never below zero. */
  function BudgetRisk(predictedCost: real, budget: int): (r: real)
    requires predictedCost > 0.0
    ensures r >= 0.0
    ensures r == 0.0 <==> predictedCost <= budget as real
    ensures budget >= 0 ==> r <= 40.0
  {
    ShortfallFraction(predictedCost, budget as real);
    Max(0.0, (predictedCost - budget as real) / predictedCost * 40.0)
  }

  /** `risk_score` of app.py:82-87: delay as a fraction of 150 days weighs 60,
      the overrun 40; the blend is capped at 100 and truncated by `int()`. */
  function Risk(delay: real, predictedCost: real, budget: int): (r: int)
    requires delay >= 0.0 && predictedCost > 0.0
    ensures 0 <= r <= 100
  {
    Min(100.0, delay / 150.0 * 60.0 + BudgetRisk(predictedCost, budget)).Floor
  }

  /** Within the clamped delay range the score is at least 6: the delay term alone
      contributes 15 / 150 * 60. */
  lemma RiskAtLeastSix(delay: real, predictedCost: real, budget: int)
    requires 15.0 <= delay && predictedCost > 0.0
    ensures 6 <= Risk(delay, predictedCost, budget)
  {
  }

  /** When the budget covers the cost, only the delay counts and the cap never
      applies. */
  lemma RiskWithoutOverrun(delay: real, predictedCost: real, budget: int)
    requires 0.0 <= delay <= 200.0 && 0.0 < predictedCost <= budget as real
    ensures Risk(delay, predictedCost, budget) == (delay * 0.4).Floor
    ensures Risk(delay, predictedCost, budget) <= 80
  {
  }

  /** A shorter delay and a larger budget never raise the risk score. */
  lemma RiskMonotone(d1: real, d2: real, predictedCost: real, b1: int, b2: int)
    requires 0.0 <= d2 <= d1 && predictedCost > 0.0 && b1 <= b2
    ensures Risk(d2, predictedCost, b2) <= Risk(d1, predictedCost, b1)
  {
    if (b2 as real) < predictedCost {
      QuotientMonotone(predictedCost - b2 as real, predictedCost - b1 as real, predictedCost);
    }
  }

  /** With a non-negative budget, a lower predicted cost never raises the budget
      part of the risk. */
  lemma BudgetRiskMonotoneInCost(c1: real, c2: real, budget: int)
    requires 0.0 < c1 <= c2 && budget >= 0
    ensures BudgetRisk(c1, budget) <= BudgetRisk(c2, budget)
  {
    var b := budget as real;
    ShortfallFraction(c1, b);
    ShortfallFraction(c2, b);
    assert b / c2 <= b / c1 by {
      assert b / c1 - b / c2 == b * (c2 - c1) / (c1 * c2);
      assert b * (c2 - c1) >= 0.0;
    }
  }

  /** With a non-negative budget, a shorter and cheaper project never carries a
      higher risk score. */
  lemma RiskMonotoneInCost(d1: real, d2: real, c1: real, c2: real, budget: int)
    requires 0.0 <= d2 <= d1 && 0.0 < c2 <= c1 && budget >= 0
    ensures Risk(d2, c2, budget) <= Risk(d1, c1, budget)
  {
    BudgetRiskMonotoneInCost(c2, c1, budget);
  }

  /** Cost split into material, labour, equipment and miscellaneous shares. */
  datatype CostBreakdown = CostBreakdown(material: real, labor: real, equipment: real, misc: real)
  {
    function Total(): real { material + labor + equipment + misc }
  }

  /** Time split into planning, engineering, execution and inspection shares. */
  datatype TimeBreakdown = TimeBreakdown(planning: real, engineering: real, execution: real, inspection: real)
  {
    function Total(): real { planning + engineering + execution + inspection }
  }

  /** The 50/30/15/5 cost split of app.py:99-102. */
  function SplitCost(predictedCost: real): (b: CostBreakdown)
    ensures b.Total() == predictedCost
    ensures predictedCost >= 0.0 ==> 0.0 <= b.misc <= b.equipment <= b.labor <= b.material
  {
    CostBreakdown(predictedCost * 0.5, predictedCost * 0.3, predictedCost * 0.15, predictedCost * 0.05)
  }

  /** The 20/25/40/15 time split of app.py:108-111. */
  function SplitTime(delay: real): (b: TimeBreakdown)
    ensures b.Total() == delay
    ensures delay >= 0.0 ==> 0.0 <= b.inspection <= b.planning <= b.engineering <= b.execution
  {
    TimeBreakdown(delay * 0.20, delay * 0.25, delay * 0.40, delay * 0.15)
  }

  /** The three advice texts; `Rank` orders them from understaffed to overstaffed. */
  datatype Recommendation = IncreaseWorkforce | Balanced | WorkforceHigh
  {
    function Message(): (s: string) {
      match this
      case IncreaseWorkforce => "Increase workforce to avoid major delays."
      case WorkforceHigh => "Workforce is high. You may optimize labor cost."
      case Balanced => "Workforce allocation looks balanced."
    }

    /** Different advice always reads differently. */
    lemma MessagesDistinct(other: Recommendation)
      requires this != other
      ensures Message() != other.Message()
    {
    }

    function Rank(): (r: nat) {
      match this
      case IncreaseWorkforce => 0
      case Balanced => 1
      case WorkforceHigh => 2
    }
  }

  /** The first-match advice of app.py:116-121: fewer than one worker per 150
      units of area is too few, more than one per 80 too many. Stated in whole
      numbers, each verdict is independent of the order of the tests: the "high"
      test never overlaps the "increase" test. */
  function Recommend(totalWorkers: nat, area: nat): (r: Recommendation)
    ensures r == IncreaseWorkforce <==> 150 * totalWorkers < area
    ensures r == WorkforceHigh <==> 80 * totalWorkers > area
    ensures r == Balanced <==> 80 * totalWorkers <= area <= 150 * totalWorkers
  {
    if (totalWorkers as real) < area as real / 150.0 then IncreaseWorkforce
    else if (totalWorkers as real) > area as real / 80.0 then WorkforceHigh
    else Balanced
  }

  /** More workers never move the advice towards "increase". */
  lemma RecommendMonotone(t1: nat, t2: nat, area: nat)
    requires t1 <= t2
    ensures Recommend(t1, area).Rank() <= Recommend(t2, area).Rank()
  {
  }

  /** `required_workers_estimate = int(area / 100)`: one worker per full 100 units. */
  function RequiredWorkers(area: nat): (r: nat)
    ensures r == area / 100
  {
    var q := area / 100;
    assert q as real <= area as real / 100.0 < q as real + 1.0;
    (area as real / 100.0).Floor
  }

  /** Staffing a project at its own required-workers estimate is judged balanced,
      except for areas below 100 (the estimate is zero) and between 151 and 199
      (one worker, but the advice wants two). */
  lemma RequiredWorkersVerdict(area: nat)
    ensures Recommend(RequiredWorkers(area), area)
         == if 0 < area < 100 || 150 < area < 200 then IncreaseWorkforce else Balanced
  {
  }
}
