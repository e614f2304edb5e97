# Construction estimate pipeline — a verified model

This project models the estimation pipeline inside `generate()` of the Flask
application `app.py` (lines 35-123). The pipeline is given the parsed form values:
area, total workers, budget, project type and start date. From them it computes:

- the workforce split into engineers, planners, inspectors, skilled workers and
  labourers (module `Workforce`);
- the base cost from the project type's unit cost, the workforce efficiency score,
  and the predicted cost with up to 25% markup (module `Cost`);
- the delay, lengthened by a budget shortage and clamped to [15, 200] days, and
  the completion day (module `Schedule`);
- the risk score, the cost and time breakdowns, the workforce recommendation and
  the required-workers estimate (module `Report`);
- the whole pipeline as one function `Generate`, with the properties that span
  several stages (module `Estimator`).

`Numeric` holds Python's `min`/`max` and small real-arithmetic facts.

All arithmetic is exact: the integer inputs are converted with `as real`, and
Python's `int(x)` on the non-negative values it is applied to is `x.Floor`. A
calendar date is a day number, so the completion date is the start day plus the
whole days of the delay. The project type is the submitted string. `ParseType`
maps it onto the closed variant `ProjectType`, whose `Other` arm carries the
default rate of 1500.

Some facts proved here go beyond what the code states:

- The risk score is truncated by `int()` at app.py:82, not rounded. Every estimate's
  risk lies in [6, 100], because the delay term alone is at least 15 / 150 * 60 = 6.
- The raw delay is at most 100 days, since the efficiency floor is 0.6. The shortage
  term is at most 60 days when the budget is not negative. So with a non-negative
  budget the delay never passes 160 days, and the 200-day ceiling at app.py:76 is
  reached only with a negative budget (`CeilingNeedsNegativeBudget`,
  `NegativeBudgetHitsCeiling`). A very large area alone cannot reach it.
- `labor_workers` is reproduced as written. It is negative exactly when fewer than
  three workers are given, because the one-per-role floors then exceed the headcount
  (`LaborNonNegativeIff`, `SmallTeams`).
- Staffing a project at its own `required_workers_estimate` gets the advice
  "Increase workforce" for areas 1-99 and 151-199, and "balanced" otherwise
  (`RequiredWorkersVerdict`).
- With a non-negative budget, more workers never raise cost, delay, risk or the
  completion day (`WorkforceMonotone`). A larger budget never raises delay, risk or
  the completion day, and leaves the cost unchanged (`BudgetMonotone`).
- The non-negative budget is needed for the workforce claim. With a budget of −1 on
  1000 units of residential area, one worker instead of none raises the efficiency
  from 1/22 to 3/22 and lowers the cost from 1,500,000·109/88 to 1,500,000·107/88.
  The shortage fraction (cost + 1) / cost then grows, so the delay gets longer
  (`NegativeBudgetMoreWorkersLater`).
- An area of 0 makes the predicted cost 0, and the pipeline then divides by it: at
  app.py:73 (the shortage fraction) when the budget is negative, otherwise at
  app.py:85 (the risk formula). In the model, `Generate` returns `ZeroDivision`
  exactly in that case.

## Model

| member | source | states |
|---|---|---|
| `Numeric.Min` | app.py:63 | `min` gives a value no larger than either argument, and equal to one of them |
| `Numeric.Max` | app.py:70 | `max` gives a value no smaller than either argument, and equal to one of them |
| `Workforce.Share` | app.py:35-39 | `int(total * rate)` is non-negative and lies within one below the exact product |
| `Workforce.AtLeastOne` | app.py:35-37 | `max(1, n)`: at least 1 and at least `n`, and equal to one of them |
| `Workforce.Allocate` | app.py:35-40 | the five role counts always add up to the total headcount exactly |
| `Workforce.ShareAsPercent` | app.py:35-39 | a share at a whole percentage equals the integer quotient `total * pct / 100` |
| `Workforce.AllocateInIntegers` | app.py:35-40 | the split equals an integer-only restatement: floors of 15%, 10%, 5% (each at least 1), 30%, and the remainder |
| `Workforce.RoleFloors` | app.py:35-39 | at least one inspector; engineers ≥ planners ≥ inspectors; skilled workers ≥ 0 |
| `Workforce.LaborNonNegativeIff` | app.py:35-40 | the labour remainder is non-negative if and only if the headcount is at least 3 |
| `Workforce.GoldenTeam` | app.py:35-40 | twenty workers are split 3/2/1/6/8 |
| `Workforce.SmallTeams` | app.py:35-40 | a team of at most two is split as one engineer, planner and inspector, no skilled worker, and labour of headcount − 3 |
| `Cost.ParseType` | app.py:46-53 | a type string falls to the default arm exactly when it is not one of the four table keys |
| `Cost.Key` | app.py:46-51 | each known type's table key parses back to that type |
| `Cost.UnitCost` | app.py:46-53 | unit cost lies in [900, 3000], and the default arm costs 1500 |
| `Cost.BaseCost` | app.py:53 | base cost is non-negative and zero exactly when the area is zero |
| `Cost.UnknownTypePricedAsResidential` | app.py:53 | any string outside the table is priced at 1500, the same as "residential" |
| `Cost.Capacity` | app.py:56-60 | weighted capacity equals headcount + (engineers − inspectors) + 0.5·planners + 0.2·skilled |
| `Cost.Efficiency` | app.py:56-61 | the efficiency score is positive exactly when the capacity is, and never exceeds a non-negative capacity, since the divisor `area / 100 + 1` is at least 1 |
| `Cost.PredictedCost` | app.py:63 | no markup once efficiency reaches 1, and never a discount on a non-negative base cost |
| `Cost.GoldenTeamEfficiency` | app.py:56-61 | on 1000 units of area, the 3/2/1/6/8 split scores 24.2 / 11 = 2.2 |
| `Cost.SmallTeamEfficiency` | app.py:56-61 | on 1000 units of area, the no-worker and one-worker splits score 1/22 and 3/22 |
| `Cost.CapacityLowerBound` | app.py:35-40 | weighted capacity is at least the headcount plus one half |
| `Cost.EfficiencyPositive` | app.py:56-61 | the efficiency score is positive for every area and headcount |
| `Cost.RolesGrowWithTeam` | app.py:35-39 | a larger team never has fewer engineers, planners or skilled workers, and its inspectors grow by at most the added headcount |
| `Cost.CapacityMonotone` | app.py:56-60 | more workers never lower weighted capacity |
| `Cost.EfficiencyMonotoneInCapacity` | app.py:56-61 | on the same area, a split with no less weighted capacity never scores lower |
| `Cost.EfficiencyMonotoneInWorkforce` | app.py:56-61 | more workers never lower the efficiency score |
| `Cost.MarkupBounds` | app.py:63 | base ≤ predicted ≤ 1.25·base, with no markup exactly when efficiency ≥ 1 or the base is 0 |
| `Cost.CostAntitoneInEfficiency` | app.py:63 | a higher efficiency never raises the predicted cost |
| `Cost.CostMonotoneInWorkforce` | app.py:35-63 | more workers never raise the predicted cost of the same project |
| `Schedule.RawDelay` | app.py:69-70 | the efficiency-driven delay is positive and at most 100 days |
| `Schedule.ShortageDays` | app.py:72-74 | the shortage term is non-negative, and positive exactly when the budget is below the predicted cost; it is at most 60 for a budget ≥ 0 and below 60 for a budget > 0 |
| `Schedule.Delay` | app.py:69-76 | the clamped delay always lies in [15, 200] |
| `Schedule.CompletionDay` | app.py:93 | completion is the start plus the whole days of the delay: never before the start and never past the start plus the delay |
| `Schedule.CompletionWindow` | app.py:76-93 | the completion day lies 15 to 200 days after the start |
| `Schedule.CeilingNeedsNegativeBudget` | app.py:69-76 | with a budget ≥ 0 the delay is at most 160, so a delay of 200 implies a negative budget |
| `Schedule.ShortageAntitoneInBudget` | app.py:72-74 | a larger budget never adds shortage days |
| `Schedule.DelayAntitoneInBudget` | app.py:69-76 | a larger budget never lengthens the delay |
| `Schedule.RawDelayAntitone` | app.py:70 | a higher efficiency never lengthens the raw delay |
| `Schedule.ShortageMonotoneInCost` | app.py:72-74 | with a budget ≥ 0, a lower predicted cost never adds shortage days |
| `Schedule.DelayImprovesWithEfficiency` | app.py:69-76 | with a budget ≥ 0, higher efficiency and lower cost never lengthen the delay |
| `Report.BudgetRisk` | app.py:85 | the budget term is in [0, 40] for a budget ≥ 0, and zero exactly when the budget covers the cost |
| `Report.Risk` | app.py:82-87 | the risk score is an integer in [0, 100] |
| `Report.RiskAtLeastSix` | app.py:82-87 | with a delay of at least 15 days the risk score is at least 6 |
| `Report.RiskWithoutOverrun` | app.py:82-87 | when the budget covers the cost, the risk is the truncated delay term `int(0.4·delay)`, at most 80 |
| `Report.RiskMonotone` | app.py:82-87 | a shorter delay and a larger budget never raise the risk score |
| `Report.BudgetRiskMonotoneInCost` | app.py:85 | with a budget ≥ 0, a lower cost never raises the budget term |
| `Report.RiskMonotoneInCost` | app.py:82-87 | with a budget ≥ 0, a shorter and cheaper project never has a higher risk |
| `Report.SplitCost` | app.py:99-102 | the four cost shares sum exactly to the predicted cost and are ordered misc ≤ equipment ≤ labour ≤ material, all ≥ 0 |
| `Report.SplitTime` | app.py:108-111 | the four time shares sum exactly to the delay and are ordered inspection ≤ planning ≤ engineering ≤ execution, all ≥ 0 |
| `Report.Recommend` | app.py:116-121 | "increase" iff 150·workers < area, "high" iff 80·workers > area, "balanced" iff 80·workers ≤ area ≤ 150·workers; the tests do not overlap, so their order does not matter |
| `Report.Recommendation.MessagesDistinct` | app.py:116-121 | the three advice texts are pairwise different, so the message identifies the verdict |
| `Report.RecommendMonotone` | app.py:116-121 | more workers never move the advice towards "increase" |
| `Report.RequiredWorkers` | app.py:123 | `int(area / 100)` equals the integer quotient `area / 100` |
| `Report.RequiredWorkersVerdict` | app.py:116-123 | the required-workers estimate is judged "increase" for areas 1-99 and 151-199, else "balanced" |
| `Estimator.Generate` | app.py:35-123 | the pipeline stops with a division by zero where the predicted cost it divides by (app.py:73 or app.py:85) is 0; in the model that happens exactly when the area is 0 |
| `Estimator.GenerateStages` | app.py:35-123 | the predicted cost is positive, and each estimate field is the stage function of the earlier fields |
| `Estimator.GenerateWellFormed` | app.py:35-123 | every estimate: headcount adds up, labour ≥ 0 iff headcount ≥ 3, cost within the 25% markup, delay in [15, 200] (≤ 160 for budget ≥ 0), risk in [6, 100], completion 15-200 days out, both breakdowns sum to their totals with their shares ordered, required workers = ⌊area / 100⌋ |
| `Estimator.BudgetMonotone` | app.py:63-93 | raising the budget leaves workforce and cost unchanged and never raises delay, risk or the completion day |
| `Estimator.WorkforceMonotone` | app.py:35-121 | with a budget ≥ 0, more workers never raise cost, delay, risk or the completion day, and never move the advice towards "increase" |
| `Estimator.UnknownTypeEstimatedAsResidential` | app.py:46-53 | an unknown project type gives exactly the estimate of "residential" |
| `Estimator.GoldenStages` | app.py:35-70 | 20 workers on 1000 units of residential area: split 3/2/1/6/8, efficiency 2.2, cost 1,500,000, raw delay 300/11 |
| `Estimator.GoldenReport` | app.py:82-123 | from a delay of 300/11 and a cost of 1,500,000 within a 2,000,000 budget: risk 10, completion day 27, breakdowns 750,000/450,000/225,000/75,000 and 60/11, 75/11, 120/11, 45/11, advice "high", 10 required workers |
| `Estimator.ResidentialGoldenCase` | app.py:35-123 | the whole estimate for area 1000, 20 workers, budget 2,000,000, residential: delay 300/11, risk 10, completion day 27, advice "high", 10 required workers |
| `Estimator.NegativeBudgetHitsCeiling` | app.py:72-76 | a budget of −3,000,000 on the golden project drives the delay to exactly 200 |
| `Estimator.SmallTeamStages` | app.py:35-63 | no worker or one worker on 1000 units of residential area: efficiency (2n + 1)/22, cost 1,500,000·(109 − 2n)/88 |
| `Estimator.SmallTeamStageDelay` | app.py:69-76 | for those teams with a budget of −1, the delay stage gives 100 raw days plus a shortage of 60 + 60 / cost |
| `Estimator.SmallTeamDelay` | app.py:69-76 | with a budget of −1, those teams are delayed 160 + 60 / cost days |
| `Estimator.NegativeBudgetMoreWorkersLater` | app.py:35-76 | with a budget of −1, one worker is delayed longer than none: the budget ≥ 0 hypothesis of `WorkforceMonotone` is needed |

## Left out

- The Flask routes `home` and `create`, and the request and response handling of
  `generate` (app.py:1-28, app.py:125-154). This covers form parsing with `int()` and
  `render_template` with `round(…, 2)` display rounding. They are web I/O; the model
  starts from parsed values and ends with unrounded values.
- Loading `cost_model` and `delay_model` with `joblib.load` (app.py:8-9). This is
  foreign deserialisation, and the pipeline never uses these models.
- train_model.py as a whole. It draws random data, fits library regression models
  and writes them to disk, and it has no logic of its own to state.
- Calendar parsing and `timedelta` arithmetic (app.py:93). Dates are day numbers.
- Binary floating point. Python computes `total_workers * 0.15`, the efficiency and
  the breakdowns in IEEE-754 doubles. A result may then differ from the exact value
  in the last place, and a product that is exactly a whole number may truncate one
  lower. The model uses exact arithmetic.
- Estimator.Generate: a negative area or a negative headcount is excluded by its
  precondition. Those inputs are sizes and counts. For them, Python's `int()`
  truncates toward zero rather than down, and an area of −100 divides by zero at
  app.py:61. Inputs beyond the double range are not modelled either: Python raises
  `OverflowError` converting a budget above about 1.8e308 in magnitude to float at
  app.py:73 or app.py:85, and likewise for a huge area at app.py:61 or app.py:63. So
  "exactly when the area is 0" holds for the exact-arithmetic model only.
