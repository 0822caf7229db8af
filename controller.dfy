/**
 * The state `CreateController` sets up and its two handlers mutate: the `input` flags
 * written by the keyboard observer, and the closure variables `speed` and `translation`,
 * the actor box and the camera target written by `charaterPhysics` before every render.
 */
module CharacterController {
  import opened Vectors
  import opened Input
  import opened Locomotion

  /** A call on one of the character's animation groups, by its index in the loaded list. */
  datatype Clip = Play(group: nat, loop: bool) | Stop(group: nat)

  /** Clip calls of a key-down: in the bowling demo `w` loops group 6 and `s` loops group 8. */
  function KeyDownClips(d: Demo, key: string): (r: seq<Clip>)
    ensures r != [] <==> d == BowlingDemo && KeyAction(key) in {Some(Forward), Some(Backward)}
    ensures r != [] ==> r == [Play(if key == "w" then 6 else 8, true)]
  {
    if d == BowlingDemo && key == "w" then [Play(6, true)]
    else if d == BowlingDemo && key == "s" then [Play(8, true)]
    else []
  }

  /** Clip calls of a key-up: the group that key's key-down started is stopped. */
  function KeyUpClips(d: Demo, key: string): (r: seq<Clip>)
    ensures r != [] <==> d == BowlingDemo && KeyAction(key) in {Some(Forward), Some(Backward)}
    ensures r != [] ==> r == [Stop(KeyDownClips(d, key)[0].group)]
  {
    if d == BowlingDemo && key == "w" then [Stop(6)]
    else if d == BowlingDemo && key == "s" then [Stop(8)]
    else []
  }

  /** Local-to-world mapping of a translation for a heading: fixes the zero vector. */
  ghost predicate FixesZero(toWorld: (real, Vec3) -> Vec3)
  {
    forall yaw: real :: toWorld(yaw, Zero) == Zero
  }

  class Controller {
    const demo: Demo
    var forward: bool
    var backward: bool
    var left: bool
    var right: bool
    var speed: real
    /** The reused `translation` vector handed to `locallyTranslate`. */
    var translation: Vec3
    /** Heading of the actor box about the up axis, accumulated over `rotate` calls. */
    var yaw: real
    var position: Vec3
    var target: Vec3
    /** Whether the character's animation groups have been loaded. */
    var clipsLoaded: bool
    /** The calls made on animation groups, oldest first. */
    var clips: seq<Clip>

    function Held(): Flags
      reads this
    {
      Flags(forward, backward, left, right)
    }

    ghost predicate Valid()
      reads this
    {
      0.0 <= speed < MaxSpeed + Acceleration &&
      (clips != [] ==> clipsLoaded)
    }

    /** The box starts at (1, 1, 1) and the camera is aimed at (1, 1, 1). */
    constructor (demo: Demo)
      ensures Valid() && this.demo == demo
      ensures Held() == Released && speed == 0.0 && translation == Zero && yaw == 0.0
      ensures position == Vec3(1.0, 1.0, 1.0) && target == Vec3(1.0, 1.0, 1.0)
      ensures !clipsLoaded && clips == []
    {
      this.demo := demo;
      forward, backward, left, right := false, false, false, false;
      speed, translation, yaw := 0.0, Zero, 0.0;
      position, target := Vec3(1.0, 1.0, 1.0), Vec3(1.0, 1.0, 1.0);
      clipsLoaded, clips := false, [];
    }

    /**
     * The character model has loaded (bowling demo): its animation groups become available,
     * group 0 is stopped and group 1, the idle clip, is looped.
     */
    method CharacterLoaded()
      requires Valid()
      requires demo == BowlingDemo
      modifies this`clipsLoaded, this`clips
      ensures Valid() && clipsLoaded
      ensures clips == old(clips) + [Stop(0), Play(1, true)]
    {
      clipsLoaded := true;
      clips := clips + [Stop(0), Play(1, true)];
    }

    /**
     * A call on an animation group from an event handler. Before the groups are loaded the
     * bowling demo's key handler fails on the undefined `characterAnimations`, so the call is lost.
     */
    method PlayClip(c: Clip) returns (played: bool)
      requires Valid()
      modifies this`clips
      ensures Valid()
      ensures played == clipsLoaded
      ensures clips == old(clips) + (if played then [c] else [])
    {
      played := clipsLoaded;
      if played {
        clips := clips + [c];
      }
    }

    /** A KEYDOWN event. The flag is set before any clip call, so it is set even when that call fails. */
    method KeyDown(key: string)
      requires Valid()
      modifies this`forward, this`backward, this`left, this`right, this`clips
      ensures Valid()
      ensures Held() == Press(old(Held()), key)
      ensures clips == old(clips) + (if clipsLoaded then KeyDownClips(demo, key) else [])
    {
      if key == "w" {
        forward := true;
        if demo == BowlingDemo {
          var _ := PlayClip(Play(6, true));
        }
      } else if key == "s" {
        backward := true;
        if demo == BowlingDemo {
          var _ := PlayClip(Play(8, true));
        }
      } else if key == "a" {
        left := true;
      } else if key == "d" {
        right := true;
      }
    }

    /** A KEYUP event. */
    method KeyUp(key: string)
      requires Valid()
      modifies this`forward, this`backward, this`left, this`right, this`clips
      ensures Valid()
      ensures Held() == Release(old(Held()), key)
      ensures clips == old(clips) + (if clipsLoaded then KeyUpClips(demo, key) else [])
    {
      if key == "w" {
        forward := false;
        if demo == BowlingDemo {
          var _ := PlayClip(Stop(6));
        }
      } else if key == "s" {
        backward := false;
        if demo == BowlingDemo {
          var _ := PlayClip(Stop(8));
        }
      } else if key == "a" {
        left := false;
      } else if key == "d" {
        right := false;
      }
    }

    /**
     * One call of `charaterPhysics`. `toWorld(yaw, t)` is the world displacement that
     * `locallyTranslate(t)` gives the box at heading `yaw`.
     */
    method Tick(toWorld: (real, Vec3) -> Vec3)
      requires Valid()
      requires FixesZero(toWorld)
      modifies this`speed, this`translation, this`yaw, this`position, this`target
      ensures Valid()
      ensures speed == NextSpeed(old(speed), Held())
      ensures translation == Translation(NextSpeed(old(speed), Held()), Held(), demo)
      ensures yaw == old(yaw) + YawDelta(Held())
      ensures position == Add(old(position), toWorld(yaw, translation))
      ensures !Moving(Held()) ==> speed == 0.0 && translation == Zero && position == old(position)
      ensures target == Vec3(position.x, old(target).y, position.z)
    {
      ghost var f, s0 := Held(), speed;
      translation := Zero;
      if (forward && speed < MaxSpeed) || (backward && speed < MaxSpeed) {
        speed := speed + Acceleration;
      }
      if forward {
        translation := translation.(z := speed);
      }
      if backward {
        translation := translation.(z := -speed / BackDivisor(demo));
      }
      assert translation == Translation(speed, f, demo);
      if !forward && !backward {
        speed := 0.0;
      }
      assert speed == NextSpeed(s0, f);
      if left {
        yaw := yaw - TurnStep;
      }
      if right {
        yaw := yaw + TurnStep;
      }
      assert yaw == old(yaw) + YawDelta(f);
      position := Add(position, toWorld(yaw, translation));
      target := target.(z := position.z);
      target := target.(x := position.x);
    }
  }
}
