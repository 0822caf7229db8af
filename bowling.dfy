/**
 * The rules the bowling demo adds around the controller: the pointer handler that gates
 * firing on `screenMode`, the deferred throw with its two-sided spawn offset, and the
 * nested loop that lays out the pin rack.
 */
module Bowling {
  import opened Vectors
  import opened Locomotion
  import opened CharacterController
  import opened PinRack

  /** Whether the box's rotation quaternion y lies in the open band that spawns on the +x/+z side. */
  predicate RightSide(qy: real)
  {
    -0.85 < qy < 0.6
  }

  /**
   * Where `ThrowBowlingball` places the clone relative to the box at `actor`, given the y
   * component of the box's rotation quaternion: 0.7 across and 0.75 along, to one side or
   * the other; height is absolute.
   */
  function SpawnPosition(qy: real, actor: Vec3): (r: Vec3)
    ensures r.y == 1.0
    ensures RightSide(qy) <==> r.x - actor.x == 0.7 && r.z - actor.z == 0.75
    ensures !RightSide(qy) <==> r.x - actor.x == -0.7 && r.z - actor.z == -0.75
  {
    if qy > -0.85 && qy < 0.6 then Vec3(actor.x + 0.7, 1.0, actor.z + 0.75)
    else Vec3(actor.x - 0.7, 1.0, actor.z - 0.75)
  }

  /** The two sides are mirror images about the actor; the actor's own height plays no part. */
  lemma SpawnSidesMirror(q1: real, q2: real, actor: Vec3, h: real)
    requires RightSide(q1) && !RightSide(q2)
    ensures SpawnPosition(q1, actor).x + SpawnPosition(q2, actor).x == 2.0 * actor.x
    ensures SpawnPosition(q1, actor).z + SpawnPosition(q2, actor).z == 2.0 * actor.z
    ensures SpawnPosition(q1, actor.(y := h)) == SpawnPosition(q1, actor)
    ensures SpawnPosition(q2, actor.(y := h)) == SpawnPosition(q2, actor)
  {
  }

  /**
   * Facing the start heading (quaternion y = 0) spawns on the + side; turned half a circle
   * (quaternion y = 1) on the - side; both band ends themselves belong to the - side.
   */
  lemma SpawnAtHeadings(actor: Vec3)
    ensures SpawnPosition(0.0, actor) == Vec3(actor.x + 0.7, 1.0, actor.z + 0.75)
    ensures SpawnPosition(1.0, actor) == Vec3(actor.x - 0.7, 1.0, actor.z - 0.75)
    ensures SpawnPosition(-0.85, actor) == SpawnPosition(0.6, actor) == SpawnPosition(1.0, actor)
  {
  }

  class BowlingGame {
    const ctl: Controller
    var screenMode: bool
    /** Bowling balls made by `CreateBowlingball`; the latest is the template a throw clones. */
    var balls: nat
    /** Throws whose 1600 ms timer has been started and has not yet fired. */
    var pendingThrows: nat
    /** Spawn positions of thrown clones, oldest first. */
    var thrown: seq<Vec3>
    /** Positions of the placed pin clones, in placement order. */
    var pins: seq<Vec3>

    ghost predicate Valid()
      reads this, ctl
    {
      ctl.Valid() && ctl.demo == BowlingDemo &&
      pendingThrows + |thrown| <= balls &&
      (pendingThrows > 0 ==> screenMode)
    }

    constructor ()
      ensures Valid() && fresh(ctl)
      ensures !screenMode && balls == 0 && pendingThrows == 0 && thrown == [] && pins == []
      ensures ctl.Held() == Input.Released && ctl.speed == 0.0 && ctl.clips == []
      ensures !ctl.clipsLoaded && ctl.yaw == 0.0 && ctl.translation == Zero
      ensures ctl.position == Vec3(1.0, 1.0, 1.0) && ctl.target == Vec3(1.0, 1.0, 1.0)
    {
      ctl := new Controller(BowlingDemo);
      screenMode := false;
      balls, pendingThrows := 0, 0;
      thrown, pins := [], [];
    }

    /**
     * `scene.onPointerDown`. Button 0 turns screen mode on for good; in screen mode every
     * button makes a new ball, and button 2 also plays group 7 and starts a throw timer.
     * Pointer lock (buttons 0 and 1) is engine state and not kept here.
     */
    method PointerDown(button: int)
      requires Valid()
      modifies this`screenMode, this`balls, this`pendingThrows, ctl`clips
      ensures Valid()
      ensures screenMode == (old(screenMode) || button == 0)
      ensures balls == old(balls) + (if screenMode then 1 else 0)
      ensures pendingThrows == old(pendingThrows) + (if screenMode && button == 2 && ctl.clipsLoaded then 1 else 0)
      ensures ctl.clips == old(ctl.clips) + (if screenMode && button == 2 && ctl.clipsLoaded then [Play(7, false)] else [])
    {
      if button == 0 {
        screenMode := true;
      }
      if screenMode {
        balls := balls + 1;
        if button == 2 {
          var played := ctl.PlayClip(Play(7, false));
          if played {
            pendingThrows := pendingThrows + 1;
          }
        }
      }
    }

    /**
     * A throw timer fires: the latest ball is cloned at the spawn position for the box's
     * current position and quaternion y `qy`. Forces and the disposal timer belong to the
     * physics engine and are not kept here.
     */
    method ThrowTimerFired(qy: real)
      requires Valid()
      requires pendingThrows > 0
      modifies this`pendingThrows, this`thrown
      ensures Valid()
      ensures pendingThrows == old(pendingThrows) - 1
      ensures thrown == old(thrown) + [SpawnPosition(qy, ctl.position)]
    {
      pendingThrows := pendingThrows - 1;
      thrown := thrown + [SpawnPosition(qy, ctl.position)];
    }

    /** `PositionBowlinPin`: a clone of the pin template placed at (x, 0.1, z). */
    method PositionBowlingPin(x: real, z: real)
      modifies this`pins
      ensures pins == old(pins) + [Vec3(x, PinHeight, z)]
    {
      pins := pins + [Vec3(x, PinHeight, z)];
    }

    /** The two nested loops of `CreateBowlingPin`. */
    method CreateBowlingPin()
      modifies this`pins
      ensures pins == old(pins) + Rack()
    {
      var xPos := 0.0;
      var zPos := 0.0;
      for i := 1 to Rows + 1
        invariant zPos == (i - 1) as real
        invariant xPos == RowEnd(i - 1)
        invariant pins == old(pins) + RowsUpTo(i - 1)
      {
        zPos := zPos + 1.0;
        if i > 1 {
          xPos := xPos - (i as real) / 1.4;
        }
        for j := 1 to i
          invariant xPos == RowStart(i) + (j - 1) as real
          invariant pins == old(pins) + RowsUpTo(i - 1) + Row(i)[..j - 1]
        {
          xPos := xPos + 1.0;
          PositionBowlingPin(xPos, zPos);
          assert Row(i)[..j] == Row(i)[..j - 1] + [Vec3(xPos, PinHeight, zPos)];
        }
        assert Row(i)[..i - 1] == Row(i);
      }
    }
  }
}
