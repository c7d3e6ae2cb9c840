# Sand Drop Clicker — a verified model of the game state

Sand Drop Clicker is a small clicker game. The player clicks to drop grains of
sand into a container of limited capacity. Each grain gets a random particle
tier: Sand, Quartz, … up to Diamond. The player sells the container's contents
for money and spends the money on four upgrades:

- a bigger container;
- better particle tiers;
- an autoclicker;
- more grains per click.

Grains fall under gravity and settle on the floor.

This project models the game-state engine of `src/main.rs` without the
window, GUI and rendering around it, and proves what its operations promise.

| file | models |
|---|---|
| `wrappers.dfy` | `Option` (Rust's `Option`) |
| `particles.dfy` | the `SandParticle` catalogue: ordinals, values, unlock costs, colours |
| `upgrades.dfy` | the `Upgrade` kinds: cost curves, rounding, level caps |
| `tally.dfy` | the per-tier count map `particles`, with its total and its selling worth |
| `grains.dfy` | one falling `Grain`: its state as a value, the integration step, and the `Grain` class updated in place |
| `game.dfy` | `SandDropClicker`: a class whose methods update the fields in place, with the state invariant `Valid()` |

Modelling choices:

- **Maps.** The two `HashMap`s are Dafny maps; a missing key reads as 0, as
  `unwrap_or(&0)` does.
- **Grains.** `grains` is a sequence of `Grain` objects. The per-tick loop
  updates each one in place.
- **Randomness** is a parameter:
  - `rolls: nat -> Roll` gives grain i of a batch its random `u32` tier draw
    and its x and y jitter;
  - the autoclicker receives one x position and one such function per click.
- **Floating point.** `f32`/`f64` quantities are `real`: positions,
  velocities, times, the timer and `1.1^n`. `round` rounds halves away from
  zero, as Rust's `f64::round` does.
- **Invariant.** `Valid()` holds after construction and is preserved by every
  operation. It says:
  - money is never negative;
  - the container never overflows;
  - the counts add up to the number of grains;
  - the ParticleTier level is at least 1;
  - every level is within its cap;
  - only unlocked tiers have grains;
  - all grains are distinct objects.

In these places the model follows the code, which may not be what one
expects:

- **Autoclicker clicks.** When several periods have elapsed, the autoclicker
  makes `floor(timer / period)` calls to `add_grain` (main.rs:227-234). It
  does not collapse them into one spawn (`PeriodsNotCollapsed`).
- **Autoclicker timer.** The timer is reset to 0 only inside that loop. A
  call that makes no click keeps the accumulated time.
- **`rand_sand`.** It computes `r % level` and has no fallback for level 0,
  where Rust panics. `RandSand` therefore requires `level > 0`, and `Valid()`
  keeps the ParticleTier level at 1 or more.
- **Clamping.** Only the jittered grains of a batch (i > 0) have their x
  clamped to the screen width. The first grain of a click lands at the
  clicked point unclamped.
- **ParticleTier price past the last tier.** At ParticleTier level 12 the
  price looks up ordinal 12, which has no tier, and so falls back to 0
  (main.rs:491, main.rs:592). The charged price is therefore non-decreasing
  only below the cap, which is why `RoundedCostMonotone` requires
  `n < 12` for ParticleTier. At the cap the upgrade is maxed, so that price is
  never charged.

## Model

| member | source | states |
|---|---|---|
| Particles.MaxLevel | src/main.rs:616-618 | there are 12 tiers, and every tier sits at its own ordinal in the enumeration |
| Particles.Value | src/main.rs:539-554 | every grain sells for at least 1 |
| Particles.ValueIsPowerOfTwo | src/main.rs:539-554 | the tier with ordinal k sells for 2^k |
| Particles.FromU32 | src/main.rs:597-613 | returns a tier exactly when the ordinal is below 12, and that tier has the requested ordinal |
| Particles.FromU32RoundTrip | src/main.rs:597-613 | looking up a tier's own ordinal returns the tier |
| Particles.Cost | src/main.rs:575-594 | unlock cost is 0 at ordinal 0 and beyond the last tier, and at least 100 for every other tier |
| Particles.CostIncreasesByOne | src/main.rs:575-594 | each tier costs more than the one before |
| Particles.CostStrictlyIncreasing | src/main.rs:575-594 | the unlock cost is strictly increasing over ordinals 0..11 |
| Particles.CatalogueSamples | src/main.rs:728-753 | the unit tests' values: Coral's colour is (248, 131, 121); Gold sells for 1024; costs 0, 100 and 10000000 at ordinals 0, 1 and 11; from_u32 of 0, 5 and 12; 12 tiers |
| Particles.ColorOf | src/main.rs:557-572 | the colour table, one RGB triple per tier (see `ColorsDistinct`) |
| Particles.ColorsDistinct | src/main.rs:557-572 | two different tiers never share a colour |
| Upgrades.Cost | src/main.rs:483-501 | ParticleTier costs the catalogue's unlock cost at the owned level; at level 0 BiggerContainer costs 50, AutoClicker 700 and MoreParticles 1000, and these kinds never cost less than 50 |
| Upgrades.GeometricStep | src/main.rs:483-501 | for the geometric kinds each level costs exactly 1.1 times the previous one |
| Upgrades.GeometricCostIncreasing | src/main.rs:483-501 | the geometric cost curves are strictly increasing in the level |
| Upgrades.ParticleTierCostIncreasing | src/main.rs:483-501 | the ParticleTier cost is strictly increasing while tiers remain to unlock |
| Upgrades.MaxLevel | src/main.rs:504-511 | only BiggerContainer has no cap; every cap is at least the number of tiers |
| Upgrades.Caps | src/main.rs:504-511 | the caps are ParticleTier 12, AutoClicker 100 and MoreParticles 50 |
| Upgrades.Round | src/main.rs:298-302 | the rounded value is within one half of the real value, halves going away from zero |
| Upgrades.RoundedCost | src/main.rs:298-302 | the charged price is never negative; for ParticleTier it equals the catalogue's unlock cost |
| Upgrades.RoundedCostMonotone | src/main.rs:298-302 | the charged price never decreases as the level grows |
| Upgrades.CostSamples | src/main.rs:712-720 | the unit test's value: BiggerContainer costs 50 at level 0; the other bases 700 and 1000; charged prices 50, 55 and 100 |
| Tally.Bump | src/main.rs:208-211 | recording a grain of tier p adds one to p's count and leaves every other count alone |
| Tally.BumpTotals | src/main.rs:208-211 | one recorded grain adds one to the total and its value to the worth |
| Tally.TallyTotal | src/main.rs:179-216 | recording a batch adds its length to the total count |
| Tally.TallyWorth | src/main.rs:239-251 | recording a batch adds the batch's value to the worth that selling credits |
| Tally.TallySnoc | src/main.rs:208-211 | recording one more grain extends the batch's tally by one bump |
| Tally.EmptiedIsWorthless | src/main.rs:239-251 | counts that are all zero account for no grain and sell for nothing |
| Tally.ExtendUnlocked | src/main.rs:312-321 | unlocking one more tier keeps every grain within the unlocked tiers |
| Tally.OnlyBelowHeld | src/main.rs:305-309 | when the unlocked tiers account for every grain, no other tier has a grain |
| Grains.Spawned | src/main.rs:645-656 | a new grain is a size×size square centred on (x, y), with velocity 0, rotation 0 and spin 3 |
| Grains.Done | src/main.rs:659-661 | a grain is settled when its bottom edge is at or below the floor line and its velocity is at most 0.1 |
| Grains.Step | src/main.rs:664-681 | a settled grain is unchanged; any other grain turns and ends at or above the floor; it falls with the velocity gravity gives when its integrated position stays above the floor, and exactly when that position reaches the floor it is clamped onto it, stopped and settled |
| Grains.SettledStaysSettled | src/main.rs:659-681 | once settled, a grain stays put however many steps follow |
| Grains.SpawnSamples | src/main.rs:766-775 | the unit tests' cases: a grain dropped below the floor is settled at once; one dropped at the top moves down |
| Grains.Grain.constructor | src/main.rs:645-656 | a new grain object holds the state `Spawned` describes |
| Grains.Grain.IsDone | src/main.rs:659-661 | the object is settled exactly when its state is `Done` |
| Grains.Grain.Update | src/main.rs:664-681 | the grain's new state is one `Step` of its old state |
| Game.RandSand | src/main.rs:305-309 | the drawn tier has ordinal r % level, never a tier at or beyond the unlocked level |
| Game.FirstTierOnly | src/main.rs:305-309 | with one tier unlocked every grain is Sand |
| Game.Draws | src/main.rs:179-216 | a batch of k grains has k drawn tiers |
| Game.DrawsAt | src/main.rs:179-216 | grain i of a batch gets the tier drawn from roll i, and that tier is unlocked |
| Game.SpawnX | src/main.rs:187-196 | the first grain keeps the clicked x; a jittered one stays within the screen width, and keeps x plus its offset when that already lies on screen |
| Game.SpawnY | src/main.rs:188-195 | the first grain keeps the clicked y; a jittered one gets y plus its offset, with no clamping |
| Game.BatchGrain | src/main.rs:187-206 | grain i of a batch: spawned at its jittered position, in the colour of the tier drawn from roll i |
| Game.Clamp | src/main.rs:194 | the clamped value lies in the range and equals the input when the input already does |
| Game.BatchSize | src/main.rs:186-201 | a batch adds at most the requested number of grains, never past capacity, and stops short only at capacity |
| Game.Clicks | src/main.rs:225-227 | the click count is the number of whole periods in the timer, and 0 for a negative timer |
| Game.AutoclickStep | src/main.rs:219-236 | inactive or full, nothing changes; otherwise the timer is zeroed or has accumulated `seconds`, and it keeps the time only when no grain was spawned; never more grains than room (how many, see `PeriodsNotCollapsed`) |
| Game.PeriodsNotCollapsed | src/main.rs:219-236 | active, with timer + seconds holding k whole periods: k clicks spawn min(k × perClick, room) grains, not one batch, and the timer is zeroed exactly when k > 0 and otherwise keeps timer + seconds |
| Game.WholePeriodsUnique | src/main.rs:225-227 | a time lies in one period interval only, so the click count is determined by the timer |
| Game.TallyDrawsUnlocked | src/main.rs:179-216 | recording k drawn grains adds k to the count of the unlocked tiers |
| Game.PushGrain | src/main.rs:187-214 | one round of the batch loop appends one new grain, in its spawned state, and counts its drawn tier; the grains stay distinct objects |
| Game.DropBatch | src/main.rs:179-216 | the batch loop appends exactly the batch's grains, counts their drawn tiers, leaves earlier grains in place, gives each new grain its spawned state, and keeps all grains distinct objects |
| Game.SandDropClicker.Valid | src/main.rs:86-98 | the state invariant: money never negative, grains within capacity, counts adding up to the grains, ParticleTier level at least 1, levels within their caps, only unlocked tiers holding grains, grains distinct objects |
| Game.SandDropClicker.CapsHold | src/main.rs:324-332 | under the invariant no level passes its cap |
| Game.SandDropClicker.HeldTiersUnlocked | src/main.rs:305-309 | under the invariant every tier holding grains is unlocked |
| Game.SandDropClicker.constructor | src/main.rs:107-128 | a new game has no money and no grains, only ParticleTier at level 1, a zero timer and an empty unlock set, and satisfies the invariant |
| Game.SandDropClicker.Size | src/main.rs:262-269 | the capacity is never below 25, the size of the container before any upgrade |
| Game.SandDropClicker.Amount | src/main.rs:272-275 | the number of grains in the container |
| Game.SandDropClicker.IsFull | src/main.rs:254-259 | under the invariant the container is full exactly when it holds as many grains as its capacity |
| Game.SandDropClicker.UpgradeCost | src/main.rs:298-302 | the price is never negative, and for ParticleTier it is the catalogue's unlock cost at the owned level |
| Game.SandDropClicker.IsMaxed | src/main.rs:324-332 | BiggerContainer is never maxed; under the invariant an upgrade is maxed exactly when its level equals its cap |
| Game.SandDropClicker.Buy | src/main.rs:312-321 | affordable and not maxed: money drops by the rounded cost and only that level rises by one; otherwise nothing changes; the invariant is kept |
| Game.SandDropClicker.AddGrain | src/main.rs:179-216 | adds exactly min(1 + MoreParticles level, room) grains at their spawn positions, counts each one's unlocked tier, keeps the old grains, and keeps the invariant |
| Game.SandDropClicker.Autoclicker | src/main.rs:219-236 | the new timer and the number of grains added are those `AutoclickStep` gives; inactive or full, nothing changes; the old grains are kept; the invariant is kept |
| Game.SandDropClicker.MakeMoney | src/main.rs:239-251 | money rises by the worth of all counted grains; every count becomes 0, so a second sale earns nothing; the container is emptied; the invariant is kept |
| Game.SandDropClicker.Unlock | src/main.rs:155-173 | an upgrade is unlocked exactly when it already was or the player can afford it now; no upgrade is ever locked again |
| Game.SandDropClicker.Click | src/main.rs:414-418 | a click over the options window or into a full container changes nothing; any other click counts once and adds a non-empty batch at the clicked point |
| Game.SandDropClicker.MoveGrains | src/main.rs:347-354 | every grain advances by one `Step`, so settled grains stay put |
| Game.SandDropClicker.Tick | src/main.rs:342-360 | one 1/30 s step: the clock advances, every existing grain takes one `Step`, then the autoclicker runs as `AutoclickStep` says; the invariant is kept |

## Left out

- `main`, the window and event loop, rendering (`draw`, `game_info`,
  `player_info`, `Grain::draw_params`, the instance batch), the egui widgets of
  `options_gui` and `key_down_event`: presentation only. The Convert and Buy
  buttons of `options_gui` are the `MakeMoney` and `Buy` methods; its unlock
  latch is `Unlock`.
- Game.SandDropClicker.Unlock: tests every kind against one balance. In
  `options_gui` the Buy button and the latch test share one loop over the
  kinds (main.rs:155-173). A purchase clicked for an earlier kind
  (main.rs:163-164) therefore lowers `money` before the latch tests the later
  kinds (main.rs:171). That interleaving within one frame is not modelled;
  the model runs `Buy` and `Unlock` as separate steps.
- The GUI's query whether the mouse is over the options window is the
  `overGui` parameter of `Click`.
- `check_update_time(FPS)` is left out. One pass of its loop is one `Tick`,
  and how many passes a frame makes is not modelled.
- The random number generator is left out. Its draws are parameters.
- The autoclicker's x position is `rand::random::<f32>() * 800`, which lies in
  [0, 800). The model does not constrain `xs`, so that range is not used.
- The jitter offsets of `add_grain` lie in [-50, 50). The model does not
  constrain a `Roll`'s `dx` and `dy`, so that range is not used either.
- Floating point is modelled as exact `real` arithmetic. Left out:
  - IEEE rounding in `powf`, `round` and the grain physics;
  - the error that accumulates in the timer;
  - `Duration::from_secs_f32` in `total_time`, which is a `real` of seconds.
- `SandParticle::color` is kept as its full RGB table (`ColorOf`), but the
  model gives colours no meaning beyond telling grains apart.
  `Upgrade::btn_txt` and `Upgrade::desc` are display strings and are left out.
- Fixed-width integers are unbounded. The model does not capture overflow of:
  - `u32` levels, counts and `total_clicks`;
  - the `i64` money;
  - the `as u32` / `as i64` casts.

  `total_clicks` and `money` are bounded only by play time: nothing caps
  clicks, and every sale adds to `money` (main.rs:248), so overflow would
  take 2^32 clicks or 2^63 currency units. Levels, counts and the casts are
  bounded by the caps and by prices that money cannot reach.
- `make_money` visits the `HashMap` in its own arbitrary order. `MakeMoney`
  visits the tiers in ordinal order. The sum it credits and the counts it
  leaves do not depend on the order.
- Grain-to-grain collision is left out. The program has only a TODO for it.
- Game.SandDropClicker.Autoclicker: states the number of grains added and the
  new timer, but not the position and tier of each autoclicked grain. Each
  click is an `AddGrain`, whose contract states those.
- Game.SandDropClicker.Tick: states that pre-existing grains take one `Step`,
  but not the positions of the grains the autoclicker adds in the same tick.
