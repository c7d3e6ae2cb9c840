/**
 * The game state: the player's money, the grains in the container with
 * their per-tier counts, the upgrade levels, the unlocked upgrades and the
 * autoclicker's timer, with the operations that change them.
 *
 * Randomness is supplied by the caller: a `Roll` carries the draws one grain
 * uses (a u32 for its tier, a jitter offset for x and for y), and the
 * autoclicker receives the x position of each synthetic click.
 */
module Game {
  import opened Wrappers
  import opened Particles
  import opened Upgrades
  import opened Tally
  import opened Grains

  /** Length of one fixed simulation step. */
  const TickSeconds: real := 1.0 / 30.0
  /** Capacity of the container before any BiggerContainer upgrade. */
  const BaseCapacity: nat := 25
  /** At level L the autoclicker fires once per AutoclickPeriod / L seconds. */
  const AutoclickPeriod: real := 5.0

  /** The random draws one grain of a batch consumes. */
  datatype Roll = Roll(tier: nat, dx: real, dy: real)

  /** The x position of autoclick c. */
  function ClickX(xs: nat -> real, c: nat): real {
    xs(c)
  }

  /** The draws of the batch of autoclick c. */
  function ClickRolls(rolls: nat -> nat -> Roll, c: nat): nat -> Roll {
    rolls(c)
  }

  /** The draws of grain i of a batch. */
  function RollOf(rolls: nat -> Roll, i: nat): Roll {
    rolls(i)
  }

  function Min(a: int, b: int): int {
    if a <= b then a else b
  }

  /** `v.clamp(lo, hi)`. */
  function Clamp(v: real, lo: real, hi: real): (r: real)
    requires lo <= hi
    ensures lo <= r <= hi
    ensures lo <= v <= hi ==> r == v
  {
    if v < lo then lo else if v > hi then hi else v
  }

  /**
   * The tier a grain gets from the random u32 `r` when `level` tiers are
   * unlocked: ordinal r % level, never a tier at or beyond `level`. A level
   * of 0 would divide by zero, which the program does not guard against.
   */
  function RandSand(level: nat, r: nat): (p: SandParticle)
    requires level > 0
    ensures Ordinal(p) < level
    ensures level <= Particles.MaxLevel() ==> Ordinal(p) == r % level
  {
    FromU32(r % level).GetOr(Sand)
  }

  /** With only the first tier unlocked every grain is Sand. */
  lemma FirstTierOnly(r: nat)
    ensures RandSand(1, r) == Sand
  {
  }

  /** The tiers of the first k grains of a batch. */
  function Draws(level: nat, rolls: nat -> Roll, k: nat): (ps: seq<SandParticle>)
    requires level > 0
    ensures |ps| == k
  {
    if k == 0 then [] else Draws(level, rolls, k - 1) + [RandSand(level, RollOf(rolls, k - 1).tier)]
  }

  /** Grain i of a batch gets the tier drawn from roll i, an unlocked one. */
  lemma {:induction false} DrawsAt(level: nat, rolls: nat -> Roll, k: nat, i: nat)
    requires level > 0 && i < k
    ensures Draws(level, rolls, k)[i] == RandSand(level, RollOf(rolls, i).tier)
    ensures Ordinal(Draws(level, rolls, k)[i]) < level
  {
    if i < k - 1 {
      DrawsAt(level, rolls, k - 1, i);
    }
  }

  /** Horizontal position of grain i of a batch dropped at x: jittered grains stay on screen. */
  function SpawnX(x: real, i: nat, roll: Roll): (nx: real)
    ensures i == 0 ==> nx == x
    ensures i > 0 ==> 0.0 <= nx <= ScreenWidth
    ensures i > 0 && 0.0 <= x + roll.dx <= ScreenWidth ==> nx == x + roll.dx
  {
    if i == 0 then x else Clamp(x + roll.dx, 0.0, ScreenWidth)
  }

  /** Vertical position of grain i of a batch dropped at y (never clamped). */
  function SpawnY(y: real, i: nat, roll: Roll): (ny: real)
    ensures i == 0 ==> ny == y
    ensures i > 0 ==> ny == y + roll.dy
  {
    if i == 0 then y else y + roll.dy
  }

  /**
   * How many grains a batch of `amount` adds to a container holding
   * `current` of `size`: as many as requested, but never past capacity.
   */
  function BatchSize(amount: nat, current: nat, size: nat): (k: nat)
    ensures k <= amount
    ensures k == 0 || current + k <= size
    ensures current < size ==> k == amount || current + k == size
  {
    if current >= size then 0 else Min(amount, size - current)
  }

  /**
   * Number of autoclicks due when the timer reads `timer`: the whole number
   * of periods AutoclickPeriod / level it holds (0 for a negative timer).
   */
  function Clicks(timer: real, level: nat): (n: nat)
    requires level > 0
    ensures timer >= 0.0 ==>
      n as real * (AutoclickPeriod / level as real) <= timer < (n + 1) as real * (AutoclickPeriod / level as real)
    ensures timer < 0.0 ==> n == 0
  {
    var q := (timer / (AutoclickPeriod / level as real)).Floor;
    if q < 0 then 0 else q
  }

  /** What one autoclicker call does: the new timer and the number of grains spawned. */
  datatype Autoclick = Autoclick(timer: real, spawned: nat)

  /**
   * The autoclicker at level `level`, with a container that is `full` or has
   * `room` free places, a timer reading `timer` and `seconds` elapsed, each
   * click dropping `perClick` grains. Inactive, it changes nothing. Active, it
   * makes one click per whole period in the timer, each click spawning up to
   * `perClick` grains, and zeroes the timer if it clicked at all.
   */
  function AutoclickStep(level: nat, full: bool, timer: real, seconds: real, perClick: nat, room: nat): (r: Autoclick)
    ensures r.spawned <= room
    ensures level == 0 || full ==> r == Autoclick(timer, 0)
    ensures level > 0 && !full ==> (r.timer == 0.0 || r.timer == timer + seconds)
    ensures level > 0 && !full && timer + seconds >= 0.0 && r.timer != 0.0 ==> r.spawned == 0
  {
    if level == 0 || full then Autoclick(timer, 0)
    else
      var t := timer + seconds;
      var clicks := Clicks(t, level);
      Autoclick(if clicks > 0 then 0.0 else t, Min(clicks * perClick, room))
  }

  /**
   * An active autoclicker whose timer, once `seconds` are added, holds k
   * whole periods makes k clicks: it spawns k batches' worth of grains (as
   * room allows), not one, and it zeroes the timer exactly when k > 0.
   */
  lemma PeriodsNotCollapsed(level: nat, timer: real, seconds: real, perClick: nat, room: nat, k: nat)
    requires level > 0
    requires k as real * (AutoclickPeriod / level as real) <= timer + seconds
    requires timer + seconds < (k + 1) as real * (AutoclickPeriod / level as real)
    ensures AutoclickStep(level, false, timer, seconds, perClick, room)
            == Autoclick(if k > 0 then 0.0 else timer + seconds, Min(k * perClick, room))
  {
    var p := AutoclickPeriod / level as real;
    var t := timer + seconds;
    assert p > 0.0;
    WholePeriodsUnique(Clicks(t, level), k, p, t);
  }

  /** A time lies in only one period interval [n × p, (n + 1) × p). */
  lemma WholePeriodsUnique(n: nat, k: nat, p: real, t: real)
    requires p > 0.0
    requires n as real * p <= t < (n + 1) as real * p
    requires k as real * p <= t < (k + 1) as real * p
    ensures n == k
  {
    if n < k {
      MulMonotone((n + 1) as real, k as real, p);
    } else if k < n {
      MulMonotone((k + 1) as real, n as real, p);
    }
  }

  lemma MulMonotone(a: real, b: real, p: real)
    requires a <= b && p > 0.0
    ensures a * p <= b * p
  {
  }

  /**
   * After c clicks of `amount` grains into `room` free places, one more click
   * fills up to (c + 1) × amount places, still never more than `room`.
   */
  lemma BatchAfterClicks(c: nat, amount: nat, n0: nat, room: nat)
    ensures Min(c * amount, room) + BatchSize(amount, n0 + Min(c * amount, room), n0 + room)
            == Min((c + 1) * amount, room)
  {
    assert (c + 1) * amount == c * amount + amount;
  }

  /** No grain object occurs twice. */
  ghost predicate Distinct(gs: seq<Grain>) {
    forall a, b :: 0 <= a < b < |gs| ==> gs[a] != gs[b]
  }

  lemma DistinctPush(gs: seq<Grain>, g: Grain)
    requires Distinct(gs) && g !in gs
    ensures Distinct(gs + [g])
  {
  }

  /** Counting grain i's tier extends the tally of the first i draws to i + 1. */
  lemma TallyStep(c0: Counts, c: Counts, level: nat, rolls: nat -> Roll, i: nat)
    requires level > 0 && c == TallyAll(c0, Draws(level, rolls, i))
    ensures Bump(c, RandSand(level, RollOf(rolls, i).tier)) == TallyAll(c0, Draws(level, rolls, i + 1))
  {
    TallySnoc(c0, Draws(level, rolls, i), RandSand(level, RollOf(rolls, i).tier));
  }

  /**
   * Every drawn tier is unlocked, so counting k draws adds k to the count of
   * the unlocked tiers.
   */
  lemma {:induction false} TallyDrawsUnlocked(c: Counts, level: nat, rolls: nat -> Roll, k: nat)
    requires 0 < level <= |AllTiers|
    ensures CountBelow(TallyAll(c, Draws(level, rolls, k)), level) == CountBelow(c, level) + k
  {
    if k > 0 {
      var p := RandSand(level, RollOf(rolls, k - 1).tier);
      TallyDrawsUnlocked(c, level, rolls, k - 1);
      TallySnoc(c, Draws(level, rolls, k - 1), p);
      BumpCountBelow(TallyAll(c, Draws(level, rolls, k - 1)), p, level);
    }
  }

  /** Grain i of a batch dropped at (x, y) with `level` tiers unlocked. */
  function BatchGrain(x: real, y: real, rolls: nat -> Roll, level: nat, i: nat): GrainState
    requires level > 0
  {
    var roll := RollOf(rolls, i);
    Spawned(SpawnX(x, i, roll), SpawnY(y, i, roll), GrainSize, ColorOf(RandSand(level, roll.tier)))
  }

  /** From index `n0` on, `gs` holds the grains of a batch dropped at (x, y), in order. */
  ghost predicate IsBatchFrom(gs: seq<Grain>, n0: nat, x: real, y: real, rolls: nat -> Roll, level: nat)
    reads set g | g in gs
  {
    && level > 0 && n0 <= |gs|
    && forall i :: n0 <= i < |gs| ==> gs[i].State() == BatchGrain(x, y, rolls, level, i - n0)
  }

  lemma BatchPush(gs: seq<Grain>, n0: nat, g: Grain, x: real, y: real, rolls: nat -> Roll, level: nat)
    requires IsBatchFrom(gs, n0, x, y, rolls, level)
    requires g.State() == BatchGrain(x, y, rolls, level, |gs| - n0)
    ensures IsBatchFrom(gs + [g], n0, x, y, rolls, level)
  {
  }

  /**
   * One round of a batch drop: grain i is created and appended to `gs`, and
   * its drawn tier counted in `counts`.
   */
  method PushGrain(gs: seq<Grain>, counts: Counts, n0: nat, c0: Counts, level: nat,
                   x: real, y: real, rolls: nat -> Roll, i: nat)
    returns (gs': seq<Grain>, counts': Counts)
    requires level > 0 && |gs| == n0 + i
    requires counts == TallyAll(c0, Draws(level, rolls, i))
    requires Distinct(gs) && IsBatchFrom(gs, n0, x, y, rolls, level)
    ensures |gs'| == |gs| + 1 && gs <= gs'
    ensures counts' == TallyAll(c0, Draws(level, rolls, i + 1))
    ensures Distinct(gs') && IsBatchFrom(gs', n0, x, y, rolls, level)
  {
    var roll := RollOf(rolls, i);
    var newX, newY := SpawnX(x, i, roll), SpawnY(y, i, roll);
    var sand := RandSand(level, roll.tier);
    var grain := new Grain(newX, newY, GrainSize, ColorOf(sand));
    TallyStep(c0, counts, level, rolls, i);
    DistinctPush(gs, grain);
    BatchPush(gs, n0, grain, x, y, rolls, level);
    counts' := Bump(counts, sand);
    gs' := gs + [grain];
  }

  /**
   * The loop of a batch drop: up to `amount` new grains appended to `gs`
   * (stopping once `size` grains are held), each with its tier drawn from
   * `rolls` and counted in `counts`. No existing grain is touched.
   */
  method DropBatch(gs: seq<Grain>, counts: Counts, amount: nat, size: nat, level: nat,
                   x: real, y: real, rolls: nat -> Roll)
    returns (gs': seq<Grain>, counts': Counts)
    requires level > 0 && Distinct(gs)
    ensures |gs'| == |gs| + BatchSize(amount, |gs|, size) && gs <= gs'
    ensures counts' == TallyAll(counts, Draws(level, rolls, BatchSize(amount, |gs|, size)))
    ensures Distinct(gs')
    ensures IsBatchFrom(gs', |gs|, x, y, rolls, level)
  {
    var i: nat := 0;
    gs', counts' := gs, counts;
    ghost var k := BatchSize(amount, |gs|, size);
    while i < amount
      invariant i <= k
      invariant |gs'| == |gs| + i && gs <= gs'
      invariant counts' == TallyAll(counts, Draws(level, rolls, i))
      invariant Distinct(gs')
      invariant IsBatchFrom(gs', |gs|, x, y, rolls, level)
    {
      if |gs| + i >= size {
        assert i == k;
        break;
      }
      gs', counts' := PushGrain(gs', counts', |gs|, counts, level, x, y, rolls, i);
      i := i + 1;
    }
    assert i == k;
  }


  class SandDropClicker {
    var money: int
    /** Grains held per tier; the grains themselves do not record their tier. */
    var particles: Counts
    var grains: seq<Grain>
    var upgrades: map<Upgrade, nat>
    var totalClicks: nat
    /** Simulated seconds elapsed. */
    var totalTime: real
    /** Upgrades shown to the player; an upgrade once added stays. */
    var unlock: set<Upgrade>
    var autoclickerTimer: real

    ghost function Footprint(): set<Grain>
      reads this`grains
    {
      set g | g in grains
    }

    /** Owned level of `u` (`*upgrades.get(&u).unwrap_or(&0)`). */
    function Level(u: Upgrade): nat
      reads this`upgrades
    {
      if u in upgrades then upgrades[u] else 0
    }

    /** `u` has not passed its cap (an upgrade without a cap never has). */
    predicate WithinCap(u: Upgrade)
      reads this`upgrades
    {
      Upgrades.MaxLevel(u).Some? ==> Level(u) <= Upgrades.MaxLevel(u).value
    }

    /**
     * The state invariant: money is never negative, the container never
     * overflows, the counts account for every grain, at least the first tier
     * and at most every tier is unlocked, no level passes its cap, the
     * unlocked tiers alone account for every grain, and every grain is a
     * distinct object.
     */
    ghost predicate Valid()
      reads this
    {
      && money >= 0
      && |grains| <= Size()
      && Total(particles) == |grains|
      && WithinCap(ParticleTier) && WithinCap(AutoClicker) && WithinCap(MoreParticles)
      && 1 <= Level(ParticleTier)
      && CountBelow(particles, Level(ParticleTier)) == |grains|
      && Distinct(grains)
    }

    /** Under the invariant no level passes its cap. */
    lemma CapsHold(u: Upgrade)
      requires Valid()
      ensures WithinCap(u)
      ensures Upgrades.MaxLevel(u).Some? ==> Level(u) <= Upgrades.MaxLevel(u).value
    {
    }

    /** Under the invariant every grain counted is of an unlocked tier. */
    lemma HeldTiersUnlocked(p: SandParticle)
      requires Valid() && Count(particles, p) > 0
      ensures Ordinal(p) < Level(ParticleTier)
    {
      OnlyBelowHeld(particles, Level(ParticleTier), p);
    }

    /** A new game: no money, no grains, only the first particle tier unlocked. */
    constructor ()
      ensures Valid()
      ensures money == 0 && particles == map[] && grains == []
      ensures upgrades == map[ParticleTier := 1] && Level(ParticleTier) == 1
      ensures totalClicks == 0 && totalTime == 0.0 && unlock == {} && autoclickerTimer == 0.0
    {
      money := 0;
      particles := map[];
      grains := [];
      upgrades := map[ParticleTier := 1];
      totalClicks := 0;
      totalTime := 0.0;
      unlock := {};
      autoclickerTimer := 0.0;
      new;
      EmptiedIsWorthless(particles);
      ZeroBelow(particles, 1);
    }

    /** Capacity of the container: at least one 25-grain unit. */
    function Size(): (s: nat)
      reads this`upgrades
      ensures s >= BaseCapacity
    {
      BaseCapacity * (1 + Level(BiggerContainer))
    }

    function Amount(): nat
      reads this`grains
    {
      |grains|
    }

    /** Whether the container is full; under the invariant, exactly at capacity. */
    function IsFull(): (full: bool)
      reads this`grains, this`upgrades
      ensures Valid() ==> (full <==> |grains| == Size())
    {
      Amount() >= Size()
    }

    /** Price of the next level of `u`, in whole currency units. */
    function UpgradeCost(u: Upgrade): (c: int)
      reads this`upgrades
      ensures c >= 0
      ensures u == ParticleTier ==> c == Particles.Cost(Level(u))
    {
      Round(Upgrades.Cost(u, Level(u)))
    }

    /** Whether `u` has reached its cap; under the invariant, exactly at it. */
    function IsMaxed(u: Upgrade): (maxed: bool)
      reads this`upgrades
      ensures u == BiggerContainer ==> !maxed
      ensures Valid() ==> (maxed <==> Upgrades.MaxLevel(u) == Some(Level(u)))
    {
      match Upgrades.MaxLevel(u)
      case Some(max) => Level(u) >= max
      case None => false
    }

    /**
     * Buys one level of `u` if the player can afford it and it is not maxed:
     * the rounded cost is debited and that level alone goes up by one.
     * Otherwise nothing changes.
     */
    method Buy(u: Upgrade)
      requires Valid()
      modifies this`money, this`upgrades
      ensures Valid()
      ensures
        var cost := old(UpgradeCost(u));
        if old(money) >= cost && !old(IsMaxed(u)) then
          money == old(money) - cost && upgrades == old(upgrades)[u := old(Level(u)) + 1]
        else
          money == old(money) && upgrades == old(upgrades)
      ensures forall v :: v != u ==> Level(v) == old(Level(v))
      ensures old(Level(u)) <= Level(u) <= old(Level(u)) + 1
    {
      var cost := UpgradeCost(u);
      if money >= cost && !IsMaxed(u) {
        if u == ParticleTier {
          ExtendUnlocked(particles, Level(ParticleTier));
        }
        money := money - cost;
        upgrades := upgrades[u := Level(u) + 1];
      }
    }

    /**
     * Drops a batch of 1 + level(MoreParticles) grains at (x, y): the first
     * exactly there, the others jittered. The batch stops at capacity. Each
     * grain gets a random unlocked tier, which is counted in `particles`.
     */
    method AddGrain(x: real, y: real, rolls: nat -> Roll)
      requires Valid()
      modifies this`grains, this`particles
      ensures Valid()
      ensures
        var level, added := old(Level(ParticleTier)), BatchSize(1 + old(Level(MoreParticles)), old(|grains|), old(Size()));
        && |grains| == old(|grains|) + added
        && old(grains) <= grains
        && particles == TallyAll(old(particles), Draws(level, rolls, added))
        && IsBatchFrom(grains, old(|grains|), x, y, rolls, level)
    {
      var amount := 1 + Level(MoreParticles);
      var level := Level(ParticleTier);
      var gs, counts := DropBatch(grains, particles, amount, Size(), level, x, y, rolls);
      ghost var added := BatchSize(amount, |grains|, Size());
      TallyTotal(particles, Draws(level, rolls, added));
      TallyDrawsUnlocked(particles, level, rolls, added);
      grains, particles := gs, counts;
    }

    /**
     * The autoclicker, run once per tick with the elapsed `seconds`: see
     * AutoclickStep. Click c drops a batch at (xs(c), 0) using rolls(c).
     */
    method Autoclicker(seconds: real, xs: nat -> real, rolls: nat -> nat -> Roll)
      requires Valid()
      modifies this`grains, this`particles, this`autoclickerTimer
      ensures Valid()
      ensures old(Level(AutoClicker)) == 0 || old(IsFull()) ==>
        grains == old(grains) && particles == old(particles) && autoclickerTimer == old(autoclickerTimer)
      ensures old(grains) <= grains
      ensures Autoclick(autoclickerTimer, |grains| - old(|grains|))
        == AutoclickStep(Level(AutoClicker), old(IsFull()), old(autoclickerTimer), seconds,
                         1 + Level(MoreParticles), Size() - old(|grains|))
    {
      var autoclickerLevel := Level(AutoClicker);
      if autoclickerLevel > 0 && !IsFull() {
        autoclickerTimer := autoclickerTimer + seconds;
        var clicks := Clicks(autoclickerTimer, autoclickerLevel);
        ghost var n0 := |grains|;
        ghost var room := Size() - n0;
        ghost var amount := 1 + Level(MoreParticles);
        for c := 0 to clicks
          modifies this`grains, this`particles, this`autoclickerTimer
          invariant Valid()
          invariant old(grains) <= grains
          invariant |grains| == n0 + Min(c * amount, room)
          invariant autoclickerTimer == if c > 0 then 0.0 else old(autoclickerTimer) + seconds
        {
          BatchAfterClicks(c, amount, n0, room);
          AddGrain(ClickX(xs, c), 0.0, ClickRolls(rolls, c));
          autoclickerTimer := 0.0;
        }
      }
    }

    /**
     * Sells everything: money goes up by the worth of all counted grains,
     * every count drops to 0 (so selling again earns nothing) and the
     * container is emptied.
     */
    method MakeMoney()
      requires Valid()
      modifies this`money, this`particles, this`grains
      ensures Valid()
      ensures money == old(money) + Worth(old(particles))
      ensures forall p :: (p in particles <==> p in old(particles)) && Count(particles, p) == 0
      ensures Worth(particles) == 0 && grains == []
    {
      var earned := 0;
      ghost var c0 := particles;
      for k := 0 to |AllTiers|
        modifies this`particles
        invariant earned == WorthBelow(c0, k)
        invariant forall p :: p in particles <==> p in c0
        invariant forall p :: Count(particles, p) == if Ordinal(p) < k then 0 else Count(c0, p)
      {
        var particle := AllTiers[k];
        OrdinalOfListed(k);
        if particle in particles {
          var count := particles[particle];
          earned := earned + count * Value(particle);
          particles := particles[particle := 0];
        }
        forall p
          ensures Count(particles, p) == if Ordinal(p) < k + 1 then 0 else Count(c0, p)
        {
          ListedAtOrdinal(p);
        }
      }
      money := money + earned;
      grains := [];
      EmptiedIsWorthless(particles);
      ZeroBelow(particles, Level(ParticleTier));
    }

    /**
     * The unlock latch of the options window: every upgrade whose price the
     * player can now pay joins `unlock`; none ever leaves it.
     */
    method Unlock()
      modifies this`unlock
      ensures forall u :: u in unlock <==> u in old(unlock) || money >= UpgradeCost(u)
      ensures old(unlock) <= unlock
    {
      for k := 0 to |AllUpgrades|
        invariant forall u :: u in unlock <==> u in old(unlock) || (u in AllUpgrades[..k] && money >= UpgradeCost(u))
      {
        var upgrade := AllUpgrades[k];
        var cost := UpgradeCost(upgrade);
        if upgrade !in unlock && money >= cost {
          unlock := unlock + {upgrade};
        }
      }
      assert AllUpgrades[..|AllUpgrades|] == AllUpgrades;
    }

    /**
     * A click at (x, y): ignored when the mouse is over the options window
     * or the container is full; otherwise counted and a batch is dropped
     * there, of at least one grain.
     */
    method Click(overGui: bool, x: real, y: real, rolls: nat -> Roll)
      requires Valid()
      modifies this`totalClicks, this`grains, this`particles
      ensures Valid()
      ensures overGui || old(IsFull()) ==>
        totalClicks == old(totalClicks) && grains == old(grains) && particles == old(particles)
      ensures !overGui && !old(IsFull()) ==>
        var added := BatchSize(1 + Level(MoreParticles), old(|grains|), Size());
        && totalClicks == old(totalClicks) + 1
        && added > 0 && |grains| == old(|grains|) + added
        && old(grains) <= grains
        && particles == TallyAll(old(particles), Draws(Level(ParticleTier), rolls, added))
        && IsBatchFrom(grains, old(|grains|), x, y, rolls, Level(ParticleTier))
    {
      if !overGui && !IsFull() {
        totalClicks := totalClicks + 1;
        AddGrain(x, y, rolls);
      }
    }

    /** Integrates every grain that has not settled by dt; settled grains stay put. */
    method MoveGrains(dt: real)
      requires Distinct(grains)
      modifies Footprint()
      ensures forall j :: 0 <= j < |grains| ==> grains[j].State() == Step(old(grains[j].State()), dt)
    {
      for i := 0 to |grains|
        invariant forall j :: 0 <= j < i ==> grains[j].State() == Step(old(grains[j].State()), dt)
        invariant forall j :: i <= j < |grains| ==> grains[j].State() == old(grains[j].State())
      {
        if grains[i].IsDone() {
          continue;
        }
        grains[i].Update(dt);
      }
    }

    /**
     * One fixed simulation step of 1/30 s: the clock advances, every grain
     * that has not settled is integrated, then the autoclicker runs.
     */
    method Tick(xs: nat -> real, rolls: nat -> nat -> Roll)
      requires Valid()
      modifies this`totalTime, this`grains, this`particles, this`autoclickerTimer, Footprint()
      ensures Valid()
      ensures totalTime == old(totalTime) + TickSeconds
      ensures old(grains) <= grains
      ensures forall i :: 0 <= i < old(|grains|) ==>
        grains[i].State() == Step(old(grains[i].State()), TickSeconds)
      ensures Autoclick(autoclickerTimer, |grains| - old(|grains|))
        == AutoclickStep(Level(AutoClicker), old(IsFull()), old(autoclickerTimer), TickSeconds,
                         1 + Level(MoreParticles), Size() - old(|grains|))
    {
      totalTime := totalTime + TickSeconds;
      MoveGrains(TickSeconds);
      Autoclicker(TickSeconds, xs, rolls);
    }
  }
}
