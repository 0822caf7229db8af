# Keyboard-driven actor controller of the bowling and third-person demos

This project models the one piece of logic in the Babylon.js demo repository that has state
of its own: the character controller set up by `CreateController` in
`src/BabylonExamples/BowlingGame.ts` and `src/BabylonExamples/ThirdPersonControl_6.ts`, and
the rules the bowling demo adds around it.

- **Input flags.** A keyboard observer keeps four flags `forward`, `backward`, `left`,
  `right` (keys `w`, `s`, `a`, `d`): key-down sets one, key-up clears it.
  In the bowling demo `w` and `s` also start and stop walk clips, by index into the
  character's animation groups.
- **Per-tick locomotion** (`charaterPhysics`, run before every render). While a move key is held
  and speed is below 1, speed grows by 0.01. With no move key held it drops to 0 at once.
  The local z-translation is `speed` forward and `-speed / d` backward; `d` is 3 in the
  bowling demo and 1 in the third-person demo, and backward wins when both keys are held.
  `a` and `d` turn the box by 0.1 rad each tick, and the camera target takes the box's x and z.
- **Bowling rules.** A pointer handler turns `screenMode` on with button 0 and never turns it off.
  In screen mode every click makes a new ball, and button 2 plays the throw clip and starts a throw timer.
  When the timer fires the ball is cloned at one of two mirrored offsets, chosen by the box's
  rotation quaternion y. A nested loop lays out ten pins in rows of 1, 2, 3 and 4.

Modules: `Vectors` (the engine's `Vector3`), `Input` (the key map, as pure functions),
`Locomotion` (the tick rules as pure functions, and lemmas about runs of ticks),
`CharacterController` (class `Controller`: the state the handlers mutate, for either demo),
`PinRack` (the rack the loop must produce) and `Bowling` (class `BowlingGame` plus the spawn offset).
The two `CreateController` copies are one class, parameterised by a `Demo` value. The demo fixes
the backward divisor and whether keys drive clips.

The code behaves as follows, and the model keeps it so:
- it fires the throw on any button-2 click in screen mode, with no edge detection;
- nothing guards the ball's disposal timer;
- clips are chosen by their index in the loaded list;
- in the bowling demo `s` plays group 8, although group 9 is the one the loader code calls `walkBackward`
  (src/BabylonExamples/BowlingGame.ts:180, 303).

Clip indices are kept as written.

## Model

| member | source | states |
|---|---|---|
| `Input.Press` | src/BabylonExamples/ThirdPersonControl_6.ts:167-182 | after key-down, an action is held iff it was held before or the key is bound to it: only the bound flag changes, unbound keys change nothing |
| `Input.Release` | src/BabylonExamples/ThirdPersonControl_6.ts:183-198 | after key-up, an action is held iff it was held before and the key is not bound to it |
| `Input.PressIdempotent` | src/BabylonExamples/ThirdPersonControl_6.ts:167-182 | a repeated key-down (auto-repeat) gives the same flags as one |
| `Input.ReleaseAfterPress` | src/BabylonExamples/BowlingGame.ts:172-207 | key-down then key-up of a key leaves the flags as key-up alone would |
| `Input.DistinctKeysCommute` | src/BabylonExamples/BowlingGame.ts:172-207 | events for keys bound to different actions can be applied in either order: two key-downs, two key-ups, or a key-down and a key-up |
| `Input.UnboundKeyIgnored` | src/BabylonExamples/BowlingGame.ts:172-207 | a key other than `w`, `s`, `a`, `d` (including `W`) changes no flag on key-down or key-up |
| `CharacterController.KeyDownClips` | src/BabylonExamples/BowlingGame.ts:174-181 | a key-down makes a clip call exactly for `w`/`s` in the bowling demo, and that call loops group 6 or 8 |
| `CharacterController.KeyUpClips` | src/BabylonExamples/BowlingGame.ts:192-199 | a key-up makes a clip call exactly for `w`/`s` in the bowling demo, and it stops the group that key started |
| `CharacterController.Controller.constructor` | src/BabylonExamples/BowlingGame.ts:145-168 | all flags false, speed 0, zero translation, box and camera target at (1, 1, 1), no clips yet |
| `CharacterController.Controller.CharacterLoaded` | src/BabylonExamples/BowlingGame.ts:301-309 | in the bowling demo, once the model loads the groups are available, group 0 is stopped and idle group 1 looped |
| `CharacterController.Controller.PlayClip` | src/BabylonExamples/BowlingGame.ts:176 | a clip call is recorded iff the groups are loaded; before that it is lost |
| `CharacterController.Controller.KeyDown` | src/BabylonExamples/BowlingGame.ts:172-189 | the flags become `Press` of the old flags, even before the clips load; the clip log grows by `KeyDownClips` when loaded; speed, box and camera untouched |
| `CharacterController.Controller.KeyUp` | src/BabylonExamples/BowlingGame.ts:190-207 | the flags become `Release` of the old flags; the clip log grows by `KeyUpClips` when loaded |
| `CharacterController.Controller.Tick` | src/BabylonExamples/ThirdPersonControl_6.ts:207-246 | new speed is `NextSpeed`, and the translation is `Translation` of the incremented speed. Yaw moves by `YawDelta`, and the box moves by the world image of the translation at the new heading. With no move key held, speed is 0, the translation is zero and the box stays put. The camera target takes the box's x and z and keeps its y. Flags are unchanged, and `0 <= speed < 1.01` is kept |
| `Locomotion.BackDivisor` | src/BabylonExamples/BowlingGame.ts:227-228 | the backward divisor is at least 1, so backward motion is never faster than forward |
| `Locomotion.NextSpeed` | src/BabylonExamples/BowlingGame.ts:220-232 | with a move key held and speed below 1 speed grows by exactly 0.01; held at 1 or more it stays; with no move key it is 0 |
| `Locomotion.Translation` | src/BabylonExamples/ThirdPersonControl_6.ts:209-223 | only z is ever non-zero. It is zero with no move key and `+speed` for forward alone. With backward held it is `-speed/3` in the bowling demo and `-speed` in the third-person demo |
| `Locomotion.YawDelta` | src/BabylonExamples/ThirdPersonControl_6.ts:224-231 | the heading change is -0.1 iff only `a` is held, +0.1 iff only `d`, and 0 iff both or neither |
| `Locomotion.BackwardOverridesForward` | src/BabylonExamples/BowlingGame.ts:224-229 | with `s` held, also holding `w` changes neither the translation nor the speed |
| `Locomotion.ThirdPersonSymmetric` | src/BabylonExamples/ThirdPersonControl_6.ts:215-220 | forward and backward translations have equal magnitude and opposite sign in the third-person demo |
| `Locomotion.BowlingBackwardIsAThird` | src/BabylonExamples/BowlingGame.ts:224-229 | backward translation is minus a third of forward translation in the bowling demo |
| `Locomotion.SpeedAfter` | src/BabylonExamples/BowlingGame.ts:211-222 | over any run of ticks from a speed in [0, 1.01), speed stays in [0, 1.01) |
| `Locomotion.SpeedAfterAppend` | src/BabylonExamples/ThirdPersonControl_6.ts:207-223 | running two runs of ticks in sequence equals running their concatenation |
| `Locomotion.HeldNeverSlows` | src/BabylonExamples/ThirdPersonControl_6.ts:211-213 | while a move key stays held, speed at the end is at least speed at the start |
| `Locomotion.HeldSpeedMonotone` | src/BabylonExamples/ThirdPersonControl_6.ts:211-223 | while a move key stays held, speed is non-decreasing from tick to tick |
| `Locomotion.ReleaseStops` | src/BabylonExamples/ThirdPersonControl_6.ts:221-223 | a tick with neither `w` nor `s` held ends at speed exactly 0, whatever came before |
| `Locomotion.HeldFrom` | src/BabylonExamples/ThirdPersonControl_6.ts:202-213 | from speed k/100 (k at most 100), n held ticks give speed min(k + n, 100)/100 |
| `Locomotion.HeldFromRest` | src/BabylonExamples/BowlingGame.ts:211-222 | from rest, n held ticks give speed min(n, 100)/100, so speed is exactly 1 from tick 100 on |
| `Bowling.SpawnPosition` | src/BabylonExamples/BowlingGame.ts:346-353 | the clone spawns at absolute height 1. It is at offset (+0.7, +0.75) from the box iff quaternion y is strictly inside (-0.85, 0.6), and at (-0.7, -0.75) iff not |
| `Bowling.SpawnSidesMirror` | src/BabylonExamples/BowlingGame.ts:346-353 | the two spawn sides are mirror images about the box, and the box's own height does not matter |
| `Bowling.SpawnAtHeadings` | src/BabylonExamples/BowlingGame.ts:346 | quaternion y 0 (start heading) spawns on the + side, 1 (half a turn) and both band ends on the - side |
| `Bowling.BowlingGame.constructor` | src/BabylonExamples/BowlingGame.ts:38-47 | screen mode off, no balls, no pending throws, nothing thrown, no pins; a fresh bowling controller with nothing held, speed 0, heading 0, zero translation, box and camera target at (1, 1, 1), and its clips not yet loaded (the character model loads later) |
| `Bowling.BowlingGame.PointerDown` | src/BabylonExamples/BowlingGame.ts:75-91 | screen mode becomes on iff it was on or the button is 0, and never goes off. In screen mode every button adds one ball. A throw (clip 7 plus one pending timer) is issued iff screen mode is on, the button is 2 and the clips are loaded. Every pending or thrown ball has a ball made for it |
| `Bowling.BowlingGame.ThrowTimerFired` | src/BabylonExamples/BowlingGame.ts:344-355 | one pending throw is consumed and a clone is added at `SpawnPosition` of the box's current position |
| `Bowling.BowlingGame.PositionBowlingPin` | src/BabylonExamples/BowlingGame.ts:406-415 | one pin clone is added at (x, 0.1, z) |
| `Bowling.BowlingGame.CreateBowlingPin` | src/BabylonExamples/BowlingGame.ts:387-401 | the loop appends exactly the pins of `Rack`, in order |
| `PinRack.RowShape` | src/BabylonExamples/BowlingGame.ts:396-399 | row k holds k-1 pins, all at z = k and height 0.1, each 1 further along x than the one before |
| `PinRack.RowsUpToLength` | src/BabylonExamples/BowlingGame.ts:390-401 | rows 1..n hold n(n-1)/2 pins |
| `PinRack.RackHasTenPins` | src/BabylonExamples/BowlingGame.ts:390-401 | the loop places exactly 10 pins |
| `PinRack.RowInRack` | src/BabylonExamples/BowlingGame.ts:390-401 | row k is the contiguous slice placed after rows 1..k-1 |
| `PinRack.AllAtPinHeight` | src/BabylonExamples/BowlingGame.ts:410 | every placed pin has y = 0.1 |
| `PinRack.RackByRows` | src/BabylonExamples/BowlingGame.ts:390-401 | the rack is rows 2, 3, 4, 5 in order (row 1 places none), all at height 0.1 |
| `PinRack.RackCoordinates` | src/BabylonExamples/BowlingGame.ts:387-401 | the exact ten positions, e.g. the last row at x = -3, -2, -1, 0 and z = 5 |

## Left out

- Physics: impostors, masses, gravity, `applyForce` on the thrown clone and its collision callback are resolved inside the Ammo solver and are not modelled. So is the 3000 ms disposal timer, which the code starts again on every ground contact with no guard. The solver also moves and turns the box between ticks; the model sees only the controller's own writes.
- Trigonometry: `locallyTranslate` is the function parameter `toWorld` of `Tick`, assumed only to map a zero translation to zero. The heading is an accumulated angle. The rotation quaternion's y used by the throw is a parameter of `ThrowTimerFired` and is not derived from that angle.
- Timers: the 1600 ms throw delay is the `pendingThrows` count, and `ThrowTimerFired` is the timer firing; real time is not modelled.
- Floating point: every number is an exact real, so 100 increments of 0.01 are exactly 1.
- Pointer lock (buttons 0 and 1) and the whole third-person pointer handler are engine calls with no state of the demo's own.
- Scene setup: environment, skybox, camera configuration, meshes, materials, the model mesh's parenting to the box and logging. The pin template at (3, 0, 3) is kept only through the positions its clones get. The ball template's position, which aliases the box's position vector, is not modelled.
- The `characterMode === 'walkForward'` branch of the character loader: `characterMode` is always `'idle'`, so it never runs.
- Before Ammo loads the box does not exist yet; the model starts once `CreateController` has created the box and registered its handlers.
- `CreateObstacle` only creates a physics sphere. The third-person `CeateBowlingball` is never called, because its caller `CreatePhysics` is commented out.
