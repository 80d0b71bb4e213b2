# Third-person locomotion controller — a verified model

This project models the locomotion core of the `ThirdPersonController` Unity
component: the input callbacks that fill a small buffer (move vector, sprint
flag, sticky jump request), the fixed-step decision that picks one of four
outcomes (climb step, move only, move plus jump impulse, move plus climb
entry), the velocity rules of `Move` and `Climb`, and the layer-mask test in
`OnTriggerExit` that ends a climb.

Layout:

- `vectors.dfy` (module `Vectors`): `Vector2`/`Vector3` as exact reals.
- `layers.dfy` (module `Layers`): the `((1 << layer) & mask) != 0` test on a
  32-bit mask. C# masks the shift count of an `int` shift to its low five
  bits, so the layer is taken modulo 32.
- `locomotion.dfy` (module `Locomotion`): the controller and rigid body as a
  value (`State`, `Body`). It has one function per event, and `Decide` names
  the branch a physics step takes.
- `traces.dfy` (module `Traces`): sequences of events in any order and the
  lemmas that hold across them. These cover sticky presses, each press used
  at most once, climbing persisting until a climbable exit, no transition
  without a request, and gravity tracking the mode.
- `controller.dfy` (module `Controller`): the component as a class
  `ThirdPersonController` whose fields the callbacks update in place. It
  drives a separate `Rigidbody` object with `useGravity`, `linearVelocity` and
  an impulse accumulator. Each method's `ensures` ties the new state to the
  matching `Locomotion` function of the old state.

Engine queries and numerics are parameters of the physics step:

- `grounded` and `canClimb` are the answers of the capsule and sphere
  overlap queries. They are fixed for the step, so `IsGrounded()`, which the
  source calls twice, gives one value.
- `basis` holds the `orientation` transform's forward, right and up axes.
- `steer` is whatever the engine makes of a direction above the threshold:
  `normalized`, the ray cast and `ProjectOnPlane(...).normalized`.
- `AddForce(up * jumpForce, ForceMode.Impulse)` adds to the body's impulse
  accumulator. It does not change `linearVelocity` within the step; the
  engine integrates the impulse later.

## Model

| member | source | states |
|---|---|---|
| `Layers.ShiftCount` | Assets/Jepa/Script/ThirdPersonController.cs:124 | the shift count actually used for `1 << layer` is below 32 |
| `Layers.LayerBit` | Assets/Jepa/Script/ThirdPersonController.cs:124 | `1 << layer` is never the zero word |
| `Layers.InSingleLayerMask` | Assets/Jepa/Script/ThirdPersonController.cs:124 | a one-layer mask admits exactly the layers with the same wrapped shift count |
| `Layers.InMaskExtremes` | Assets/Jepa/Script/ThirdPersonController.cs:124 | no layer passes the empty mask; every layer passes the full mask |
| `Layers.InMaskWraps` | Assets/Jepa/Script/ThirdPersonController.cs:124 | layers 32 apart test the same bit, because the shift count wraps |
| `Locomotion.Awake` | Assets/Jepa/Script/ThirdPersonController.cs:18-21 | after start-up the move vector is zero, no flag is set and the body is as the scene made it |
| `Locomotion.OnMovePerformed` | Assets/Jepa/Script/ThirdPersonController.cs:30 | the move vector becomes the new value and nothing else changes |
| `Locomotion.OnMoveCanceled` | Assets/Jepa/Script/ThirdPersonController.cs:31 | the move vector is reset to zero and nothing else changes |
| `Locomotion.OnSprintPerformed` | Assets/Jepa/Script/ThirdPersonController.cs:33 | sprinting becomes true and nothing else changes |
| `Locomotion.OnSprintCanceled` | Assets/Jepa/Script/ThirdPersonController.cs:34 | sprinting becomes false and nothing else changes |
| `Locomotion.OnJumpPerformed` | Assets/Jepa/Script/ThirdPersonController.cs:36 | the jump request is raised and nothing else changes |
| `Locomotion.MoveVelocity` | Assets/Jepa/Script/ThirdPersonController.cs:72-99 | vertical velocity is always kept; at or below squared length 0.01 x and z become exactly 0; above it x and z are the steered direction times the sprint or walk speed |
| `Locomotion.ClimbVelocity` | Assets/Jepa/Script/ThirdPersonController.cs:103-107 | climb velocity comes from input and axes alone and is zero for zero input |
| `Locomotion.Decide` | Assets/Jepa/Script/ThirdPersonController.cs:50-66 | climb step iff climbing; impulse iff not climbing, requested and grounded; climb entry iff not climbing, requested, not grounded and can climb; move only otherwise, so impulse and entry never coincide |
| `Locomotion.FixedStep` | Assets/Jepa/Script/ThirdPersonController.cs:48-70 | the request is cleared on every branch; while climbing only the climb velocity changes; otherwise `Move`'s velocity is written; the impulse grows exactly on a grounded jump; the mode changes exactly on climb entry, which turns gravity off; gravity changes only with the mode |
| `Locomotion.OnTriggerExit` | Assets/Jepa/Script/ThirdPersonController.cs:122-129 | on a climbable layer, climbing ends and gravity is turned on; otherwise the state is unchanged; no other field changes |
| `Locomotion.DefaultConfig` | Assets/Jepa/Script/ThirdPersonController.cs:7-10 | the serialized tunables walk 3, sprint 6, jump 5, climb 2: all positive, sprint faster than walk, with the mask as given |
| `Locomotion.MoveHorizontalSpeed` | Assets/Jepa/Script/ThirdPersonController.cs:75-94 | above the threshold, the squared horizontal speed is the steered direction's squared horizontal length times the square of the sprint or walk speed; the raw stick magnitude enters only through `steer` |
| `Locomotion.MoveSpeedIsConfigured` | Assets/Jepa/Script/ThirdPersonController.cs:75-94 | corollary: when the steered direction has unit horizontal length, the horizontal speed is exactly the walk or sprint speed |
| `Locomotion.ReleasedStickStops` | Assets/Jepa/Script/ThirdPersonController.cs:96-99 | with zero input `Move` leaves velocity (0, vy, 0) for any orientation |
| `Locomotion.ClimbIgnoresVelocity` | Assets/Jepa/Script/ThirdPersonController.cs:103-107 | a climbing step's velocity does not depend on the velocity before it |
| `Traces.PressesCollapse` | Assets/Jepa/Script/ThirdPersonController.cs:36 | any number n >= 1 of jump presses in a row leaves the same state as one press |
| `Traces.EachPressUsedOnce` | Assets/Jepa/Script/ThirdPersonController.cs:36-69 | over any run, impulses plus climb entries plus a request left pending never exceed the presses plus a request pending at the start |
| `Traces.NoPressNoJump` | Assets/Jepa/Script/ThirdPersonController.cs:58-69 | with no pending request and no presses, no step jumps or enters a climb, no impulse is queued and the request stays clear |
| `Traces.StepNeverReapplies` | Assets/Jepa/Script/ThirdPersonController.cs:58-69 | after a physics step, later steps without a new press never jump or enter a climb |
| `Traces.ClimbingPersists` | Assets/Jepa/Script/ThirdPersonController.cs:50-53 | while no climbable trigger is left, a climbing character stays climbing through any run, every step is a climb step, and gravity and impulse are untouched |
| `Traces.NoRequestNoTransition` | Assets/Jepa/Script/ThirdPersonController.cs:58-69 | with no pending request, no presses and no climbable exit, the mode and gravity never change |
| `Traces.GravityTracksMode` | Assets/Jepa/Script/ThirdPersonController.cs:64-65 | if gravity is on exactly when not climbing, that stays true through any run of events |
| `Traces.AwakeGravityMatchesMode` | Assets/Jepa/Script/ThirdPersonController.cs:20 | a body with gravity on meets that invariant right after start-up |
| `Traces.GravityTracksModeFromAwake` | Assets/Jepa/Script/ThirdPersonController.cs:64-65 | from start-up with a gravity-enabled body, gravity is on exactly when not climbing after every run of events |
| `Controller.Rigidbody.AddImpulse` | Assets/Jepa/Script/ThirdPersonController.cs:60 | an impulse is added to the queued impulses, not written to the velocity |
| `Controller.ThirdPersonController.constructor` | Assets/Jepa/Script/ThirdPersonController.cs:23-25 | the component holds the body it found and starts in the `Awake` state |
| `Controller.ThirdPersonController.OnMovePerformed` | Assets/Jepa/Script/ThirdPersonController.cs:30 | the object's new state is `Locomotion.OnMovePerformed` of the old |
| `Controller.ThirdPersonController.OnMoveCanceled` | Assets/Jepa/Script/ThirdPersonController.cs:31 | the object's new state is `Locomotion.OnMoveCanceled` of the old |
| `Controller.ThirdPersonController.OnSprintPerformed` | Assets/Jepa/Script/ThirdPersonController.cs:33 | the object's new state is `Locomotion.OnSprintPerformed` of the old |
| `Controller.ThirdPersonController.OnSprintCanceled` | Assets/Jepa/Script/ThirdPersonController.cs:34 | the object's new state is `Locomotion.OnSprintCanceled` of the old |
| `Controller.ThirdPersonController.OnJumpPerformed` | Assets/Jepa/Script/ThirdPersonController.cs:36 | the object's new state is `Locomotion.OnJumpPerformed` of the old |
| `Controller.ThirdPersonController.FixedUpdate` | Assets/Jepa/Script/ThirdPersonController.cs:48-70 | returns the branch `Decide` names, and the new state of controller and body is `FixedStep` of the old |
| `Controller.ThirdPersonController.Move` | Assets/Jepa/Script/ThirdPersonController.cs:72-100 | writes exactly `MoveVelocity` of the old velocity to the body |
| `Controller.ThirdPersonController.Climb` | Assets/Jepa/Script/ThirdPersonController.cs:103-107 | overwrites the body's velocity with `ClimbVelocity` |
| `Controller.ThirdPersonController.OnTriggerExit` | Assets/Jepa/Script/ThirdPersonController.cs:122-129 | the object's new state is `Locomotion.OnTriggerExit` of the old |
| `Controller.EnterClimbEpisode` | Assets/Jepa/Script/ThirdPersonController.cs:58-69 | with the serialized tunables, two presses in the air next to a climbable surface give one climb entry: climbing, gravity off, request consumed |

## Left out

- Input-system plumbing (`PlayerInput`, subscribing the callbacks, `Enable`) is engine wiring. The callbacks are plain methods.
- `rb.freezeRotation = true` in `Awake` is not modelled: rotation is not part of the model.
- `IsGrounded` and `CanClimb` (capsule and sphere overlap queries) are foreign engine calls. They are the step's `grounded` and `canClimb` parameters.
- The ray cast, `normalized` and `ProjectOnPlane` in `Move` are floating-point engine numerics. They are the `steer` parameter, so the wall slide's geometry is not checked.
- `Quaternion.LookRotation`/`Slerp` facing in `Move` and `Time.fixedDeltaTime` are not modelled: float rotation math.
- `Update` (camera-flattened orientation) is float normalisation only. The orientation axes enter `FixedUpdate` as the `basis` parameter. The code has no guard for a camera looking straight up or down, and the model adds none.
- `OnDrawGizmos` is editor-only rendering.
- The engine's integration of queued impulses and of gravity into velocity and position is not modelled. It belongs to the physics engine.
- Floating-point rounding is not modelled: vectors are exact reals, and the threshold `0.01f` is the real 0.01.
- `Locomotion.MoveSpeedIsConfigured`: the exact walk or sprint speed is proved only when the steered direction has unit horizontal length, because normalisation and wall projection are engine numerics outside the model. A slide along a sloped surface shortens the horizontal part, and walking straight into a vertical wall projects the direction to zero (`normalized` of zero is zero), so the speed is then 0. `Locomotion.MoveHorizontalSpeed` states the general relation.
