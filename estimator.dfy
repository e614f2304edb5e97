/** The estimation pipeline of `generate()` (app.py:35-123), end to end: the parsed
    form values in, the dashboard's values out. */
module Estimator {
  import opened Workforce
  import opened Cost
  import opened Schedule
  import opened Report
  import Numeric

  /** The parsed form: area, headcount and budget as integers, the project type as
      the submitted string, and the start date as a day number. */
  datatype Request = Request(area: int, totalWorkers: int, budget: int, projectType: string, startDay: int)

  /** Everything `generate()` hands to the dashboard, before display rounding. */
  datatype Estimate = Estimate(
    workforce: Distribution,
    predictedCost: real,
    delay: real,
    riskScore: int,
    completionDay: int,
    costBreakdown: CostBreakdown,
    timeBreakdown: TimeBreakdown,
    recommendation: Recommendation,
    requiredWorkers: int)

  /** Either an estimate or the division by zero that a zero predicted cost
      causes: the shortage fraction (app.py:73, when the budget is negative) or
      else the risk formula (app.py:85) divides by it. */
  datatype Outcome = Estimated(estimate: Estimate) | ZeroDivision

  /** The efficiency score and predicted cost a request leads to. */
  function EfficiencyOf(req: Request): (r: real)
    requires req.area >= 0 && req.totalWorkers >= 0
  {
    Efficiency(req.area, Allocate(req.totalWorkers))
  }

  function PredictedCostOf(req: Request): (r: real)
    requires req.area >= 0 && req.totalWorkers >= 0
  {
    PredictedCost(BaseCost(req.area, ParseType(req.projectType)), EfficiencyOf(req))
  }

  /** The pipeline, stage by stage. It stops where the source divides by a zero
      predicted cost, which happens exactly for an empty area. */
  function Generate(req: Request): (out: Outcome)
    requires req.area >= 0 && req.totalWorkers >= 0
    ensures out.ZeroDivision? <==> req.area == 0
  {
    var efficiency := EfficiencyOf(req);
    var predictedCost := PredictedCostOf(req);
    EfficiencyPositive(req.area, req.totalWorkers);
    MarkupBounds(BaseCost(req.area, ParseType(req.projectType)), efficiency);
    if predictedCost == 0.0 then ZeroDivision
    else
      var delay := Delay(efficiency, predictedCost, req.budget);
      Estimated(Estimate(
        Allocate(req.totalWorkers),
        predictedCost,
        delay,
        Risk(delay, predictedCost, req.budget),
        CompletionDay(req.startDay, delay),
        SplitCost(predictedCost),
        SplitTime(delay),
        Recommend(req.totalWorkers, req.area),
        RequiredWorkers(req.area)))
  }

  /** The estimate, field by field, in terms of the stage functions. */
  lemma GenerateStages(req: Request)
    requires req.area > 0 && req.totalWorkers >= 0
    ensures PredictedCostOf(req) > 0.0
    ensures Generate(req).Estimated?
    ensures var e, pc := Generate(req).estimate, PredictedCostOf(req);
      && e.workforce == Allocate(req.totalWorkers)
      && e.predictedCost == pc
      && e.delay == Delay(EfficiencyOf(req), pc, req.budget)
      && e.riskScore == Risk(e.delay, pc, req.budget)
      && e.completionDay == CompletionDay(req.startDay, e.delay)
      && e.costBreakdown == SplitCost(pc)
      && e.timeBreakdown == SplitTime(e.delay)
      && e.recommendation == Recommend(req.totalWorkers, req.area)
      && e.requiredWorkers == RequiredWorkers(req.area)
  {
    EfficiencyPositive(req.area, req.totalWorkers);
    MarkupBounds(BaseCost(req.area, ParseType(req.projectType)), EfficiencyOf(req));
  }

  /** The guarantees every estimate carries. */
  ghost predicate WellFormed(req: Request, e: Estimate)
    requires req.area >= 0
  {
    && e.workforce.Headcount() == req.totalWorkers
    && e.workforce.inspectors >= 1 && e.workforce.planners >= 1 && e.workforce.engineers >= 1
    && (e.workforce.labor >= 0 <==> req.totalWorkers >= 3)
    && var base := BaseCost(req.area, ParseType(req.projectType)) as real;
    && base <= e.predictedCost <= 1.25 * base
    && 15.0 <= e.delay <= 200.0
    && (req.budget >= 0 ==> e.delay <= 160.0)
    && 6 <= e.riskScore <= 100
    && req.startDay + 15 <= e.completionDay <= req.startDay + 200
    && e.costBreakdown.Total() == e.predictedCost
    && e.timeBreakdown.Total() == e.delay
    && 0.0 <= e.costBreakdown.misc <= e.costBreakdown.equipment
       <= e.costBreakdown.labor <= e.costBreakdown.material
    && 0.0 <= e.timeBreakdown.inspection <= e.timeBreakdown.planning
       <= e.timeBreakdown.engineering <= e.timeBreakdown.execution
    && e.requiredWorkers * 100 <= req.area < e.requiredWorkers * 100 + 100
  }

  /** Every successful estimate is well formed: the headcount adds up, cost stays
      within the 25% markup, delay and risk within their ranges, the completion day
      within the delay window, and both breakdowns add up to their totals. */
  lemma GenerateWellFormed(req: Request)
    requires req.area > 0 && req.totalWorkers >= 0
    ensures Generate(req).Estimated? && WellFormed(req, Generate(req).estimate)
  {
    GenerateStages(req);
    var e := Generate(req).estimate;
    RoleFloors(req.totalWorkers);
    LaborNonNegativeIff(req.totalWorkers);
    EfficiencyPositive(req.area, req.totalWorkers);
    MarkupBounds(BaseCost(req.area, ParseType(req.projectType)), EfficiencyOf(req));
    CeilingNeedsNegativeBudget(EfficiencyOf(req), e.predictedCost, req.budget);
    RiskAtLeastSix(e.delay, e.predictedCost, req.budget);
    CompletionWindow(EfficiencyOf(req), e.predictedCost, req.budget, req.startDay);
  }

  /** Raising the budget leaves workforce, cost and its breakdown unchanged and
      never lengthens the delay, raises the risk or moves the completion day later. */
  lemma BudgetMonotone(req: Request, moreBudget: int)
    requires req.area > 0 && req.totalWorkers >= 0 && req.budget <= moreBudget
    ensures var e1, e2 := Generate(req).estimate, Generate(req.(budget := moreBudget)).estimate;
      && e2.workforce == e1.workforce
      && e2.predictedCost == e1.predictedCost
      && e2.costBreakdown == e1.costBreakdown
      && e2.delay <= e1.delay
      && e2.riskScore <= e1.riskScore
      && e2.completionDay <= e1.completionDay
  {
    var richer := req.(budget := moreBudget);
    GenerateStages(req);
    GenerateStages(richer);
    var e1, e2 := Generate(req).estimate, Generate(richer).estimate;
    assert PredictedCostOf(richer) == PredictedCostOf(req);
    DelayAntitoneInBudget(EfficiencyOf(req), e1.predictedCost, req.budget, moreBudget);
    RiskMonotone(e1.delay, e2.delay, e1.predictedCost, req.budget, moreBudget);
  }

  /** With a non-negative budget, adding workers never raises cost, delay, risk or
      the completion day, and never moves the advice towards "increase". */
  lemma WorkforceMonotone(req: Request, moreWorkers: int)
    requires req.area > 0 && req.budget >= 0 && 0 <= req.totalWorkers <= moreWorkers
    ensures var e1, e2 := Generate(req).estimate, Generate(req.(totalWorkers := moreWorkers)).estimate;
      && e2.predictedCost <= e1.predictedCost
      && e2.delay <= e1.delay
      && e2.riskScore <= e1.riskScore
      && e2.completionDay <= e1.completionDay
      && e1.recommendation.Rank() <= e2.recommendation.Rank()
  {
    var larger := req.(totalWorkers := moreWorkers);
    GenerateStages(req);
    GenerateStages(larger);
    var e1, e2 := Generate(req).estimate, Generate(larger).estimate;
    EfficiencyMonotoneInWorkforce(req.area, req.totalWorkers, moreWorkers);
    CostMonotoneInWorkforce(req.area, ParseType(req.projectType), req.totalWorkers, moreWorkers);
    DelayImprovesWithEfficiency(EfficiencyOf(req), EfficiencyOf(larger), e1.predictedCost, e2.predictedCost, req.budget);
    RiskMonotoneInCost(e1.delay, e2.delay, e1.predictedCost, e2.predictedCost, req.budget);
    RecommendMonotone(req.totalWorkers, moreWorkers, req.area);
  }

  /** A project type outside the cost table gets the same estimate as "residential". */
  lemma UnknownTypeEstimatedAsResidential(req: Request)
    requires req.area >= 0 && req.totalWorkers >= 0
    requires req.projectType !in {"residential", "commercial", "road", "bridge"}
    ensures Generate(req) == Generate(req.(projectType := "residential"))
  {
  }

  /** The golden case: 1000 units of residential area, 20 workers, a budget of
      2,000,000 starting on day 0. Efficiency is 24.2 / 11 = 2.2, so there is no
      markup, the delay is 60 / 2.2 = 300 / 11 days and the risk truncates to 10. */
  lemma ResidentialGoldenCase(req: Request)
    requires req.area == 1000 && req.totalWorkers == 20 && req.budget == 2000000
    requires req.projectType == "residential" && req.startDay == 0
    ensures Generate(req) == Estimated(Estimate(
      Distribution(3, 2, 1, 6, 8),
      1500000.0,
      300.0 / 11.0,
      10,
      27,
      CostBreakdown(750000.0, 450000.0, 225000.0, 75000.0),
      TimeBreakdown(60.0 / 11.0, 75.0 / 11.0, 120.0 / 11.0, 45.0 / 11.0),
      WorkforceHigh,
      10))
  {
    GenerateStages(req);
    GoldenStages(req);
    GoldenReport();
    assert Generate(req).estimate.delay == 300.0 / 11.0;
  }

  /** The report stages of the golden case, from a delay of 300 / 11 days and a
      cost of 1,500,000 within a budget of 2,000,000. */
  lemma GoldenReport()
    ensures Risk(300.0 / 11.0, 1500000.0, 2000000) == 10
    ensures CompletionDay(0, 300.0 / 11.0) == 27
    ensures SplitCost(1500000.0) == CostBreakdown(750000.0, 450000.0, 225000.0, 75000.0)
    ensures SplitTime(300.0 / 11.0) == TimeBreakdown(60.0 / 11.0, 75.0 / 11.0, 120.0 / 11.0, 45.0 / 11.0)
    ensures Recommend(20, 1000) == WorkforceHigh
    ensures RequiredWorkers(1000) == 10
  {
  }

  /** The shared stages of the two worked cases below: 20 workers on 1000 units of
      residential area. */
  lemma GoldenStages(req: Request)
    requires req.area == 1000 && req.totalWorkers == 20 && req.projectType == "residential"
    ensures Allocate(req.totalWorkers) == Distribution(3, 2, 1, 6, 8)
    ensures EfficiencyOf(req) == 2.2
    ensures PredictedCostOf(req) == 1500000.0
    ensures RawDelay(2.2) == 300.0 / 11.0
  {
    GoldenTeam(req.totalWorkers);
    GoldenTeamEfficiency();
    assert EfficiencyOf(req) == 2.2;
    assert BaseCost(req.area, ParseType(req.projectType)) == 1500000;
  }

  /** Only a negative budget reaches the 200-day ceiling: here the shortage alone is
      180 days. */
  lemma NegativeBudgetHitsCeiling(req: Request)
    requires req.area == 1000 && req.totalWorkers == 20 && req.projectType == "residential"
    requires req.budget == -3000000
    ensures Generate(req).estimate.delay == 200.0
  {
    GenerateStages(req);
    GoldenStages(req);
    assert ShortageDays(1500000.0, -3000000) == 180.0;
  }

  /** The non-negative budget in `WorkforceMonotone` is needed. With a budget of -1
      on 1000 units of residential area, one worker instead of none raises
      efficiency from 1/22 to 3/22 and lowers the cost from 1,500,000 * 109/88 to
      1,500,000 * 107/88; but the shortage fraction (cost + 1) / cost grows as the
      cost falls, so the delay gets longer. */
  lemma NegativeBudgetMoreWorkersLater(none: Request, one: Request)
    requires none.area == one.area == 1000 && none.budget == one.budget == -1
    requires none.projectType == one.projectType == "residential"
    requires none.totalWorkers == 0 && one.totalWorkers == 1
    ensures Generate(none).estimate.delay < Generate(one).estimate.delay
  {
    SmallTeamDelay(none);
    SmallTeamDelay(one);
    SmallTeamStages(none);
    SmallTeamStages(one);
    var c0, c1 := PredictedCostOf(none), PredictedCostOf(one);
    assert 0.0 < c1 < c0;
    Numeric.QuotientAntitone(60.0, c1, c0);
  }

  /** With a budget of -1, a team of no worker or one worker on 1000 units of
      residential area is delayed 160 days plus 60 / cost. */
  lemma SmallTeamDelay(req: Request)
    requires req.area == 1000 && req.projectType == "residential" && 0 <= req.totalWorkers <= 1
    requires req.budget == -1
    ensures Generate(req).Estimated?
    ensures Generate(req).estimate.delay == 160.0 + 60.0 / PredictedCostOf(req)
  {
    GenerateStages(req);
    SmallTeamStageDelay(req);
  }

  /** The delay stage alone for those teams: the raw delay is the full 100 days
      and the shortage adds 60 + 60 / cost. */
  lemma SmallTeamStageDelay(req: Request)
    requires req.area == 1000 && req.projectType == "residential" && 0 <= req.totalWorkers <= 1
    requires req.budget == -1
    ensures PredictedCostOf(req) >= 2.0
    ensures Delay(EfficiencyOf(req), PredictedCostOf(req), req.budget) == 160.0 + 60.0 / PredictedCostOf(req)
  {
    SmallTeamStages(req);
    NegativeBudgetShortage(PredictedCostOf(req));
  }

  /** Efficiency and cost of a team of no worker or one worker on 1000 units of
      residential area. */
  lemma SmallTeamStages(req: Request)
    requires req.area == 1000 && req.projectType == "residential" && 0 <= req.totalWorkers <= 1
    ensures EfficiencyOf(req) == (2 * req.totalWorkers + 1) as real / 22.0
    ensures PredictedCostOf(req) == 1500000.0 * (109 - 2 * req.totalWorkers) as real / 88.0
  {
    SmallTeams(req.totalWorkers);
    SmallTeamEfficiency();
    var e := EfficiencyOf(req);
    assert e == (2 * req.totalWorkers + 1) as real / 22.0;
    assert BaseCost(req.area, ParseType(req.projectType)) == 1500000;
    assert PredictedCost(1500000, e) == 1500000.0 * (109 - 2 * req.totalWorkers) as real / 88.0;
  }

  /** A budget of -1 adds a full 60 days plus 60 / cost. */
  lemma NegativeBudgetShortage(cost: real)
    requires cost >= 2.0
    ensures ShortageDays(cost, -1) == 60.0 + 60.0 / cost
    ensures Delay(1.0 / 22.0, cost, -1) == Delay(3.0 / 22.0, cost, -1) == 160.0 + 60.0 / cost
  {
    Numeric.ShortfallFraction(cost, -1.0);
    assert 60.0 / cost <= 30.0;
    assert RawDelay(1.0 / 22.0) == RawDelay(3.0 / 22.0) == 100.0;
  }
}
