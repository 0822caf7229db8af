/**
 * The per-tick rules of `charaterPhysics`, the closure both demos register before each
 * render: how the held flags drive speed, the local translation and the turn, and what
 * sequences of ticks make of speed.
 */
module Locomotion {
  import opened Vectors
  import opened Input

  /** The two demos that carry this controller; they differ in backward speed and clips. */
  datatype Demo = BowlingDemo | ThirdPersonDemo

  const MaxSpeed: real := 1.0
  const Acceleration: real := 0.01
  /** Radians turned about the up axis per tick while `a` or `d` is held. */
  const TurnStep: real := 0.1

  /** Backward motion is the speed divided by this: a third of it in the bowling demo. */
  function BackDivisor(d: Demo): (r: real)
    ensures r >= 1.0
  {
    match d
    case BowlingDemo => 3.0
    case ThirdPersonDemo => 1.0
  }

  predicate Moving(f: Flags)
  {
    f.forward || f.backward
  }

  /** Speed at the end of a tick that starts at `speed` with flags `f`. */
  function NextSpeed(speed: real, f: Flags): (r: real)
    ensures Moving(f) && speed < MaxSpeed ==> r == speed + Acceleration
    ensures Moving(f) && speed >= MaxSpeed ==> r == speed
    ensures !Moving(f) ==> r == 0.0
  {
    var grown := if (f.forward && speed < MaxSpeed) || (f.backward && speed < MaxSpeed)
                 then speed + Acceleration else speed;
    if !f.forward && !f.backward then 0.0 else grown
  }

  /** The local translation of a tick, from the speed after that tick's increment. */
  function Translation(speed: real, f: Flags, d: Demo): (r: Vec3)
    ensures r.x == 0.0 && r.y == 0.0
    ensures !Moving(f) ==> r == Zero
    ensures f.forward && !f.backward ==> r.z == speed
    ensures f.backward && d == BowlingDemo ==> 3.0 * r.z == -speed
    ensures f.backward && d == ThirdPersonDemo ==> r.z == -speed
  {
    var z := if f.backward then -speed / BackDivisor(d)
             else if f.forward then speed
             else 0.0;
    Vec3(0.0, 0.0, z)
  }

  /** The change of heading in one tick: `a` turns by -0.1, `d` by +0.1, both cancel. */
  function YawDelta(f: Flags): (r: real)
    ensures r == -TurnStep <==> f.left && !f.right
    ensures r == TurnStep <==> f.right && !f.left
    ensures r == 0.0 <==> f.left == f.right
  {
    (if f.left then -TurnStep else 0.0) + (if f.right then TurnStep else 0.0)
  }

  /** Holding forward and backward together moves as holding backward alone. */
  lemma BackwardOverridesForward(speed: real, f: Flags, d: Demo)
    requires f.backward
    ensures Translation(speed, f, d) == Translation(speed, f.(forward := false), d)
    ensures NextSpeed(speed, f) == NextSpeed(speed, f.(forward := false))
  {
  }

  /** In the third-person demo forward and backward motion have the same magnitude. */
  lemma ThirdPersonSymmetric(speed: real)
    ensures Translation(speed, Flags(false, true, false, false), ThirdPersonDemo).z
         == -Translation(speed, Flags(true, false, false, false), ThirdPersonDemo).z
  {
  }

  /** In the bowling demo backward motion is a third of forward motion, opposite in sign. */
  lemma BowlingBackwardIsAThird(speed: real)
    ensures 3.0 * Translation(speed, Flags(false, true, false, false), BowlingDemo).z
         == -Translation(speed, Flags(true, false, false, false), BowlingDemo).z
  {
  }

  /** Speed after the ticks of `trace`, one set of held flags per tick, starting from `s`. */
  function SpeedAfter(s: real, trace: seq<Flags>): (r: real)
    ensures 0.0 <= s < MaxSpeed + Acceleration ==> 0.0 <= r < MaxSpeed + Acceleration
    decreases |trace|
  {
    if trace == [] then s else SpeedAfter(NextSpeed(s, trace[0]), trace[1..])
  }

  predicate AllMoving(trace: seq<Flags>)
  {
    forall t :: 0 <= t < |trace| ==> Moving(trace[t])
  }

  /** Running two traces one after the other is running their concatenation. */
  lemma {:induction false} SpeedAfterAppend(s: real, a: seq<Flags>, b: seq<Flags>)
    ensures SpeedAfter(s, a + b) == SpeedAfter(SpeedAfter(s, a), b)
    decreases |a|
  {
    if a == [] {
      assert a + b == b;
    } else {
      assert (a + b)[0] == a[0];
      assert (a + b)[1..] == a[1..] + b;
      SpeedAfterAppend(NextSpeed(s, a[0]), a[1..], b);
    }
  }

  /** While a move key stays held, speed never drops. */
  lemma {:induction false} HeldNeverSlows(s: real, trace: seq<Flags>)
    requires AllMoving(trace)
    ensures SpeedAfter(s, trace) >= s
    decreases |trace|
  {
    if trace != [] {
      assert Moving(trace[0]);
      HeldNeverSlows(NextSpeed(s, trace[0]), trace[1..]);
    }
  }

  /** While a move key stays held, speed is non-decreasing from tick to tick. */
  lemma HeldSpeedMonotone(s: real, trace: seq<Flags>, i: nat, j: nat)
    requires AllMoving(trace)
    requires i <= j <= |trace|
    ensures SpeedAfter(s, trace[..i]) <= SpeedAfter(s, trace[..j])
  {
    assert trace[..j] == trace[..i] + trace[i..j];
    SpeedAfterAppend(s, trace[..i], trace[i..j]);
    HeldNeverSlows(SpeedAfter(s, trace[..i]), trace[i..j]);
  }

  /** Any tick with neither `w` nor `s` held ends at speed 0, whatever came before. */
  lemma ReleaseStops(s: real, trace: seq<Flags>)
    requires trace != [] && !Moving(trace[|trace| - 1])
    ensures SpeedAfter(s, trace) == 0.0
  {
    var n := |trace| - 1;
    assert trace == trace[..n] + [trace[n]];
    SpeedAfterAppend(s, trace[..n], [trace[n]]);
  }

  function Min(a: nat, b: nat): nat
  {
    if a <= b then a else b
  }

  /** From speed k * 0.01 (k at most 100), each held tick adds 0.01 until speed is exactly 1. */
  lemma {:induction false} HeldFrom(k: nat, trace: seq<Flags>)
    requires k <= 100
    requires AllMoving(trace)
    ensures SpeedAfter((k as real) * Acceleration, trace) == (Min(k + |trace|, 100) as real) * Acceleration
    decreases |trace|
  {
    if trace != [] {
      assert Moving(trace[0]);
      var k' := Min(k + 1, 100);
      assert NextSpeed((k as real) * Acceleration, trace[0]) == (k' as real) * Acceleration;
      HeldFrom(k', trace[1..]);
    }
  }

  /** From rest, speed after n held ticks is min(n, 100) * 0.01: it reaches 1 at tick 100 and stays. */
  lemma HeldFromRest(trace: seq<Flags>)
    requires AllMoving(trace)
    ensures SpeedAfter(0.0, trace) == (Min(|trace|, 100) as real) * Acceleration
    ensures |trace| >= 100 ==> SpeedAfter(0.0, trace) == MaxSpeed
  {
    HeldFrom(0, trace);
  }
}
