/**
 * One falling grain: a square that gravity pulls down and that settles, once
 * and for all, on the floor line at the bottom of the play field. Positions,
 * velocities and times are `real` (the program uses f32).
 */
module Grains {
  import opened Particles

  const ScreenWidth: real := 800.0
  const ScreenHeight: real := 600.0
  const GrainSize: real := 10.0
  const Gravity: real := 300.0
  /** A grain on the floor moving slower than this counts as settled. */
  const RestSpeed: real := 0.1

  /** An axis-aligned rectangle with its top-left corner at (x, y). */
  datatype Rect = Rect(x: real, y: real, w: real, h: real) {
    function Bottom(): real { y + h }
  }

  /** Everything a grain holds, as one value. */
  datatype GrainState = GrainState(
    rect: Rect, color: Color, rotation: real, rV: real, yV: real, yA: real)

  /** The grain rests on (or below) the floor and has (almost) stopped. */
  predicate Done(s: GrainState) {
    s.rect.Bottom() >= ScreenHeight && s.yV <= RestSpeed
  }

  /** A fresh grain: a size × size square centred on (x, y), at rest, spinning at 3 rad/s. */
  function Spawned(x: real, y: real, size: real, rgb: Color): (s: GrainState)
    ensures s.rect.x + size / 2.0 == x && s.rect.y + size / 2.0 == y
    ensures s.rect.w == size && s.rect.h == size && s.color == rgb
    ensures s.yV == 0.0 && s.yA == 0.0 && s.rotation == 0.0 && s.rV == 3.0
  {
    GrainState(Rect(x - size / 2.0, y - size / 2.0, size, size), rgb, 0.0, 3.0, 0.0, 0.0)
  }

  /**
   * One integration step of length dt. A settled grain is left alone; any
   * other grain ends at or above the floor line. If the position integrated
   * with the new velocity stays above the floor, the grain is still falling
   * with that velocity and position; otherwise it is clamped onto the floor,
   * stopped and settled.
   */
  function Step(s: GrainState, dt: real): (t: GrainState)
    ensures Done(s) ==> t == s
    ensures !Done(s) ==> t.rect.Bottom() <= ScreenHeight
    ensures !Done(s) ==>
      t.rect.(y := s.rect.y) == s.rect && t.color == s.color && t.rV == s.rV && t.yA == s.yA &&
      t.rotation == s.rotation + s.rV * dt
    ensures !Done(s) ==>
      var v := s.yV + (Gravity + s.yA) * dt;
      if s.rect.y + v * dt >= ScreenHeight - s.rect.h then
        t.rect.y == ScreenHeight - s.rect.h && t.yV == 0.0 && Done(t)
      else
        t.yV == v && t.rect.y == s.rect.y + v * dt
  {
    if Done(s) then s
    else
      var v := s.yV + (Gravity + s.yA) * dt;
      var moved := s.rect.(y := s.rect.y + v * dt);
      var turned := s.rotation + s.rV * dt;
      if moved.y >= ScreenHeight - moved.h then
        s.(rect := moved.(y := ScreenHeight - moved.h), yV := 0.0, rotation := turned)
      else
        s.(rect := moved, yV := v, rotation := turned)
  }

  /** `n` steps of length dt. */
  function Steps(s: GrainState, dt: real, n: nat): GrainState {
    if n == 0 then s else Step(Steps(s, dt, n - 1), dt)
  }

  /** Once settled, a grain stays exactly where it is however many steps follow. */
  lemma {:induction false} SettledStaysSettled(s: GrainState, dt: real, n: nat)
    requires Done(s)
    ensures Steps(s, dt, n) == s
  {
    if n > 0 {
      SettledStaysSettled(s, dt, n - 1);
    }
  }

  /** A grain dropped below the floor is settled at once; one dropped at the top falls. */
  lemma SpawnSamples(rgb: Color)
    ensures Done(Spawned(0.0, ScreenHeight + 10.0, GrainSize, rgb))
    ensures Step(Spawned(0.0, 0.0, GrainSize, rgb), 1.0).rect.y > 0.0
  {
  }

  /** A grain of sand in the play field, updated in place every tick. */
  class Grain {
    var rect: Rect
    var color: Color
    var rotation: real
    var rV: real
    var yV: real
    var yA: real

    function State(): GrainState
      reads this
    {
      GrainState(rect, color, rotation, rV, yV, yA)
    }

    constructor (x: real, y: real, size: real, rgb: Color)
      ensures State() == Spawned(x, y, size, rgb)
    {
      rect := Rect(x - size / 2.0, y - size / 2.0, size, size);
      color := rgb;
      rotation := 0.0;
      rV := 3.0;
      yV := 0.0;
      yA := 0.0;
    }

    predicate IsDone()
      reads this
    {
      Done(State())
    }

    /** Advances the grain by dt; see Step for what that means. */
    method Update(dt: real)
      modifies this
      ensures State() == Step(old(State()), dt)
    {
      if IsDone() {
        return;
      }
      yV := yV + Gravity * dt;
      yV := yV + yA * dt;
      rect := rect.(y := rect.y + yV * dt);
      rotation := rotation + rV * dt;
      if rect.Bottom() >= ScreenHeight {
        rect := rect.(y := ScreenHeight - rect.h);
        yV := 0.0;
      }
    }
  }
}
