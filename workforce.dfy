/** The workforce split at the start of `generate()`: role counts derived from the
    total headcount, with a floor of one engineer, planner and inspector. */
module Workforce {
  import opened Numeric

  /** Head counts per role. `labor` is a remainder and may be negative. */
  datatype Distribution = Distribution(
    engineers: int,
    planners: int,
    inspectors: int,
    skilled: int,
    labor: int)
  {
    function Headcount(): int {
      engineers + planners + inspectors + skilled + labor
    }
  }

  /** `int(total * rate)`: Python truncates toward zero, which is the floor
      because the product is never negative. */
  function Share(total: nat, rate: real): (r: int)
    requires 0.0 <= rate
    ensures 0 <= r
    ensures r as real <= total as real * rate < r as real + 1.0
  {
    (total as real * rate).Floor
  }

  /** `max(1, n)`: the one-per-role floor. */
  function AtLeastOne(n: int): (r: int)
    ensures r >= 1 && r >= n && (r == 1 || r == n)
  {
    if n < 1 then 1 else n
  }

  /** The role split of app.py:35-40. */
  function Allocate(total: nat): (d: Distribution)
    ensures d.Headcount() == total
  {
    var engineers := AtLeastOne(Share(total, 0.15));
    var planners := AtLeastOne(Share(total, 0.10));
    var inspectors := AtLeastOne(Share(total, 0.05));
    var skilled := Share(total, 0.30);
    Distribution(engineers, planners, inspectors, skilled,
                 total - (engineers + planners + inspectors + skilled))
  }

  /** A share at a whole percentage is plain integer arithmetic: `total * pct / 100`. */
  lemma ShareAsPercent(total: nat, pct: nat)
    ensures Share(total, pct as real / 100.0) == total * pct / 100
  {
  }

  /** The split written in integer arithmetic only: an independent statement of
      app.py:35-40 with every `int(total * 0.xx)` replaced by a whole division. */
  lemma AllocateInIntegers(total: nat)
    ensures Allocate(total) == Distribution(
      AtLeastOne(total * 15 / 100),
      AtLeastOne(total * 10 / 100),
      AtLeastOne(total * 5 / 100),
      total * 30 / 100,
      total - (AtLeastOne(total * 15 / 100) + AtLeastOne(total * 10 / 100)
               + AtLeastOne(total * 5 / 100) + total * 30 / 100))
  {
    ShareAsPercent(total, 15);
    ShareAsPercent(total, 10);
    ShareAsPercent(total, 5);
    ShareAsPercent(total, 30);
  }

  /** Every fixed role is staffed, and the shares are ordered as their rates are. */
  lemma RoleFloors(total: nat)
    ensures var d := Allocate(total);
      && d.inspectors >= 1
      && d.planners >= d.inspectors
      && d.engineers >= d.planners
      && d.skilled >= 0
  {
  }

  /** The remainder left for labourers is negative exactly for teams of fewer than
      three people, where the one-per-role floors exceed the headcount. */
  lemma LaborNonNegativeIff(total: nat)
    ensures Allocate(total).labor >= 0 <==> total >= 3
  {
  }

  /** Teams of up to two: the one-per-role floors take three people, no skilled
      worker is assigned, and the labour remainder is the headcount less three. */
  lemma SmallTeams(total: nat)
    requires total <= 2
    ensures Allocate(total) == Distribution(1, 1, 1, 0, total - 3)
  {
    AllocateInIntegers(total);
  }

  /** Twenty workers: 3 engineers, 2 planners, 1 inspector, 6 skilled workers and
      8 labourers. */
  lemma GoldenTeam(total: nat)
    requires total == 20
    ensures Allocate(total) == Distribution(3, 2, 1, 6, 8)
  {
    ShareAsPercent(total, 15);
    ShareAsPercent(total, 10);
    ShareAsPercent(total, 5);
    ShareAsPercent(total, 30);
    assert Share(total, 0.15) == 3 && Share(total, 0.10) == 2;
    assert Share(total, 0.05) == 1 && Share(total, 0.30) == 6;
  }
}
