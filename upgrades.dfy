/**
 * The four upgrade kinds, their cost curves and their level caps. Costs are
 * computed over `real` (the program uses f64 with `powf`) and rounded half
 * away from zero to whole currency units.
 */
module Upgrades {
  import opened Wrappers
  import Particles

  datatype Upgrade = BiggerContainer | ParticleTier | AutoClicker | MoreParticles

  /** Every kind once, in declaration order (what iterating the enum yields). */
  const AllUpgrades: seq<Upgrade> := [BiggerContainer, ParticleTier, AutoClicker, MoreParticles]

  /** Growth factor of the geometric cost curves. */
  const GrowthRate: real := 1.1

  function Pow(b: real, n: nat): real {
    if n == 0 then 1.0 else b * Pow(b, n - 1)
  }

  lemma {:induction false} PowAtLeastOne(b: real, n: nat)
    requires b >= 1.0
    ensures Pow(b, n) >= 1.0
  {
    if n > 0 {
      PowAtLeastOne(b, n - 1);
      assert b * Pow(b, n - 1) >= 1.0 * Pow(b, n - 1);
    }
  }

  /** For a base above one, a higher power is strictly larger. */
  lemma {:induction false} PowStrictlyIncreasing(b: real, m: nat, n: nat)
    requires b > 1.0 && m < n
    ensures Pow(b, m) < Pow(b, n)
  {
    PowAtLeastOne(b, n - 1);
    assert Pow(b, n - 1) < b * Pow(b, n - 1);
    if m < n - 1 {
      PowStrictlyIncreasing(b, m, n - 1);
    }
  }

  /**
   * Price of buying level n + 1 of `u` when `n` levels are owned: the
   * catalogue's unlock cost of tier n for ParticleTier, and
   * base × 1.1^n with base 50, 700 or 1000 for the others.
   */
  function Cost(u: Upgrade, n: nat): (c: real)
    ensures c >= 0.0
    ensures u == ParticleTier ==> c == Particles.Cost(n) as real
    ensures u != ParticleTier ==> c >= 50.0
    ensures n == 0 && u == BiggerContainer ==> c == 50.0
    ensures n == 0 && u == AutoClicker ==> c == 700.0
    ensures n == 0 && u == MoreParticles ==> c == 1000.0
  {
    var baseCost: real :=
      match u
      case BiggerContainer => 50.0
      case ParticleTier => Particles.Cost(n) as real
      case AutoClicker => 700.0
      case MoreParticles => 1000.0;
    PowAtLeastOne(GrowthRate, n);
    if u == ParticleTier then baseCost else baseCost * Pow(GrowthRate, n)
  }

  /** Every geometric cost curve grows by exactly 10% per level. */
  lemma GeometricStep(u: Upgrade, n: nat)
    requires u != ParticleTier
    ensures Cost(u, n + 1) == Cost(u, n) * GrowthRate
  {
  }

  /** The geometric cost curves are strictly increasing in the level. */
  lemma {:induction false} GeometricCostIncreasing(u: Upgrade, m: nat, n: nat)
    requires u != ParticleTier && m < n
    ensures Cost(u, m) < Cost(u, n)
  {
    PowStrictlyIncreasing(GrowthRate, m, n);
    var base: real := Cost(u, 0);
    assert Cost(u, m) == base * Pow(GrowthRate, m);
    assert Cost(u, n) == base * Pow(GrowthRate, n);
  }

  /** The particle-tier cost is strictly increasing while tiers remain to unlock. */
  lemma ParticleTierCostIncreasing(m: nat, n: nat)
    requires m < n < Particles.MaxLevel()
    ensures Cost(ParticleTier, m) < Cost(ParticleTier, n)
  {
    Particles.CostStrictlyIncreasing(m, n);
  }

  /** Highest level of `u`, or None when it can be bought without limit. */
  function MaxLevel(u: Upgrade): (m: Option<nat>)
    ensures m.None? <==> u == BiggerContainer
    ensures m.Some? ==> m.value >= Particles.MaxLevel()
  {
    match u
    case ParticleTier => Some(Particles.MaxLevel())
    case AutoClicker => Some(100)
    case MoreParticles => Some(50)
    case _ => None
  }

  /** The caps: every tier for ParticleTier, 100 and 50 for the others. */
  lemma Caps()
    ensures MaxLevel(ParticleTier) == Some(12)
    ensures MaxLevel(AutoClicker) == Some(100)
    ensures MaxLevel(MoreParticles) == Some(50)
    ensures MaxLevel(BiggerContainer) == None
  {
  }

  /** `x.round()`: the nearest integer, halves rounded away from zero. */
  function Round(x: real): (n: int)
    ensures x >= 0.0 ==> n as real - 0.5 <= x < n as real + 0.5
    ensures x < 0.0 ==> n as real - 0.5 < x <= n as real + 0.5
  {
    if x >= 0.0 then (x + 0.5).Floor else -((-x + 0.5).Floor)
  }

  lemma RoundMonotone(x: real, y: real)
    requires 0.0 <= x <= y
    ensures Round(x) <= Round(y)
  {
  }

  /** The price actually charged: the cost rounded to whole currency units. */
  function RoundedCost(u: Upgrade, n: nat): (c: int)
    ensures c >= 0
    ensures u == ParticleTier ==> c == Particles.Cost(n)
  {
    Round(Cost(u, n))
  }

  /**
   * The charged price never decreases as the level grows; for ParticleTier
   * this holds while tiers remain to unlock (past the last tier the
   * catalogue's cost falls back to 0).
   */
  lemma RoundedCostMonotone(u: Upgrade, m: nat, n: nat)
    requires m <= n
    requires u == ParticleTier ==> n < Particles.MaxLevel()
    ensures RoundedCost(u, m) <= RoundedCost(u, n)
  {
    if m < n {
      if u == ParticleTier {
        ParticleTierCostIncreasing(m, n);
      } else {
        GeometricCostIncreasing(u, m, n);
      }
      RoundMonotone(Cost(u, m), Cost(u, n));
    }
  }

  /** Sample prices: BiggerContainer costs 50 then 55; ParticleTier's first tier 100. */
  lemma CostSamples()
    ensures Cost(BiggerContainer, 0) == 50.0
    ensures Cost(AutoClicker, 0) == 700.0 && Cost(MoreParticles, 0) == 1000.0
    ensures RoundedCost(BiggerContainer, 0) == 50
    ensures RoundedCost(BiggerContainer, 1) == 55
    ensures RoundedCost(ParticleTier, 1) == 100
  {
  }
}
