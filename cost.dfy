/** Cost estimation in `generate()`: the unit-cost table, the workforce efficiency
    score, and the markup applied when efficiency falls short. */
module Cost {
  import opened Numeric
  import opened Workforce

  /** The project types the cost table knows, plus one arm for every other string. */
  datatype ProjectType = Residential | Commercial | Road | Bridge | Other

  /** The form's `project_type` string, matched exactly (case-sensitive) against the
      keys of the cost table; anything else is `Other`. */
  function ParseType(s: string): (t: ProjectType)
    ensures t == Other <==> s !in {"residential", "commercial", "road", "bridge"}
  {
    if s == "residential" then Residential
    else if s == "commercial" then Commercial
    else if s == "road" then Road
    else if s == "bridge" then Bridge
    else Other
  }

  /** The cost-table key of a known type. */
  function Key(t: ProjectType): (s: string)
    requires t != Other
    ensures ParseType(s) == t
  {
    match t
    case Residential => "residential"
    case Commercial => "commercial"
    case Road => "road"
    case Bridge => "bridge"
  }

  /** The default rate of `cost_map.get(project_type, 1500)`. */
  const DefaultUnitCost := 1500

  /** Cost per unit of area. */
  function UnitCost(t: ProjectType): (c: int)
    ensures 900 <= c <= 3000
    ensures t == Other ==> c == DefaultUnitCost
  {
    match t
    case Residential => 1500
    case Commercial => 2200
    case Road => 900
    case Bridge => 3000
    case Other => DefaultUnitCost
  }

  /** `base_cost = area * unit_cost`. */
  function BaseCost(area: nat, t: ProjectType): (c: int)
    ensures c >= 0
    ensures c == 0 <==> area == 0
  {
    area * UnitCost(t)
  }

  /** Weighted labour capacity: engineers count double, planners 1.5, skilled
      workers 1.2, labourers 1; inspectors carry no weight. Around the headcount:
      every role counts once at weight 1, plus the extra weights, less the
      unweighted inspectors. */
  function Capacity(d: Distribution): (r: real)
    ensures r == d.Headcount() as real + (d.engineers - d.inspectors) as real
      + 0.5 * d.planners as real + 0.2 * d.skilled as real
  {
    2.0 * d.engineers as real + 1.5 * d.planners as real
      + 1.2 * d.skilled as real + 1.0 * d.labor as real
  }

  /** `efficiency_score`: capacity normalised by `area / 100 + 1`, a divisor of at
      least 1, so the score has the sign of the capacity and never exceeds it. */
  function Efficiency(area: nat, d: Distribution): (r: real)
    ensures r > 0.0 <==> Capacity(d) > 0.0
    ensures Capacity(d) >= 0.0 ==> r <= Capacity(d)
  {
    var den := area as real / 100.0 + 1.0;
    assert Capacity(d) - Capacity(d) / den == Capacity(d) * (den - 1.0) / den;
    Capacity(d) / den
  }

  /** `predicted_cost`: the base cost with a markup of a quarter of the efficiency
      shortfall below 1; no markup at full efficiency, and never a discount. */
  function PredictedCost(baseCost: int, efficiency: real): (r: real)
    ensures efficiency >= 1.0 ==> r == baseCost as real
    ensures baseCost >= 0 ==> r >= baseCost as real
  {
    baseCost as real * (1.0 + (1.0 - Min(efficiency, 1.0)) * 0.25)
  }

  /** An unknown type string is priced exactly like "residential". */
  lemma UnknownTypePricedAsResidential(s: string)
    requires s !in {"residential", "commercial", "road", "bridge"}
    ensures UnitCost(ParseType(s)) == UnitCost(ParseType("residential")) == 1500
  {
  }

  /** The capacity of the split is at least the headcount plus one half: since
      engineers are never fewer than inspectors, the labour remainder's losses are
      made up by the heavier weights. */
  lemma CapacityLowerBound(total: nat)
    ensures Capacity(Allocate(total)) >= total as real + 0.5
  {
  }

  /** For any non-negative headcount the efficiency score is positive. */
  lemma EfficiencyPositive(area: nat, total: nat)
    ensures Efficiency(area, Allocate(total)) > 0.0
  {
  }

  /** Growing the team never shrinks a role, and the inspectors' share grows by at
      most the number of people added. */
  lemma RolesGrowWithTeam(t1: nat, t2: nat)
    requires t1 <= t2
    ensures var d1, d2 := Allocate(t1), Allocate(t2);
      && d1.engineers <= d2.engineers
      && d1.planners <= d2.planners
      && d1.skilled <= d2.skilled
      && d2.inspectors - d1.inspectors <= t2 - t1
  {
  }

  /** Adding workers never lowers capacity. */
  lemma CapacityMonotone(t1: nat, t2: nat)
    requires t1 <= t2
    ensures Capacity(Allocate(t1)) <= Capacity(Allocate(t2))
  {
    RolesGrowWithTeam(t1, t2);
  }

  /** The markup lies between none and a quarter of the base cost, and there is no
      markup at all exactly when efficiency reaches 1 (or nothing is built). */
  lemma MarkupBounds(baseCost: nat, efficiency: real)
    requires efficiency > 0.0
    ensures var c := PredictedCost(baseCost, efficiency);
      && baseCost as real <= c <= 1.25 * baseCost as real
      && (c == baseCost as real <==> efficiency >= 1.0 || baseCost == 0)
  {
    var f := 1.0 + (1.0 - Min(efficiency, 1.0)) * 0.25;
    assert 1.0 <= f < 1.25;
    assert efficiency < 1.0 ==> f > 1.0;
    ScaleBounds(baseCost as real, f);
  }

  /** A higher efficiency score never raises the predicted cost. */
  lemma CostAntitoneInEfficiency(baseCost: nat, e1: real, e2: real)
    requires e1 <= e2
    ensures PredictedCost(baseCost, e2) <= PredictedCost(baseCost, e1)
  {
  }

  /** More workers never lower the efficiency score of the same area. */
  lemma EfficiencyMonotoneInWorkforce(area: nat, t1: nat, t2: nat)
    requires t1 <= t2
    ensures Efficiency(area, Allocate(t1)) <= Efficiency(area, Allocate(t2))
  {
    CapacityMonotone(t1, t2);
    EfficiencyMonotoneInCapacity(area, Allocate(t1), Allocate(t2));
  }

  /** A split with at least the weighted capacity of another scores at least as
      high on the same area. */
  lemma EfficiencyMonotoneInCapacity(area: nat, d1: Distribution, d2: Distribution)
    requires Capacity(d1) <= Capacity(d2)
    ensures Efficiency(area, d1) <= Efficiency(area, d2)
  {
    QuotientMonotone(Capacity(d1), Capacity(d2), area as real / 100.0 + 1.0);
  }

  /** More workers never raise the predicted cost of the same project. */
  lemma CostMonotoneInWorkforce(area: nat, t: ProjectType, t1: nat, t2: nat)
    requires t1 <= t2
    ensures PredictedCost(BaseCost(area, t), Efficiency(area, Allocate(t2)))
         <= PredictedCost(BaseCost(area, t), Efficiency(area, Allocate(t1)))
  {
    EfficiencyMonotoneInWorkforce(area, t1, t2);
    CostAntitoneInEfficiency(BaseCost(area, t), Efficiency(area, Allocate(t1)), Efficiency(area, Allocate(t2)));
  }

  /** Efficiency of no worker and of one worker on 1000 units of area: the
      capacities 0.5 and 1.5 over a divisor of 11. */
  lemma SmallTeamEfficiency()
    ensures Efficiency(1000, Distribution(1, 1, 1, 0, -3)) == 1.0 / 22.0
    ensures Efficiency(1000, Distribution(1, 1, 1, 0, -2)) == 3.0 / 22.0
  {
    assert Capacity(Distribution(1, 1, 1, 0, -3)) == 0.5;
    assert Capacity(Distribution(1, 1, 1, 0, -2)) == 1.5;
  }

  /** Efficiency of the 20-worker split 3/2/1/6/8 on 1000 units of area: a
      capacity of 24.2 over a divisor of 11. */
  lemma GoldenTeamEfficiency()
    ensures Efficiency(1000, Distribution(3, 2, 1, 6, 8)) == 2.2
  {
    assert Capacity(Distribution(3, 2, 1, 6, 8)) == 24.2;
  }
}
