/** The locomotion state machine of the third-person controller, as values:
    the controller's flags and input buffer, the rigid body's gravity flag,
    velocity and queued impulses, and one function per event that changes them.
    The class in module Controller is proved to follow these functions. */
module Locomotion {
  import opened Vectors
  import opened Layers

  /** Inspector tunables, fixed after `Awake`. */
  datatype Config = Config(
    walkSpeed: real,
    sprintSpeed: real,
    jumpForce: real,
    climbSpeed: real,
    climbableMask: bv32)

  /** The serialized defaults of the component: walk 3, sprint 6, jump 5, climb 2.
      The climbable mask has no default and is whatever the inspector sets. */
  function DefaultConfig(climbableMask: bv32): (r: Config)
    ensures r.climbableMask == climbableMask
    ensures 0.0 < r.walkSpeed < r.sprintSpeed
    ensures r.jumpForce > 0.0 && r.climbSpeed > 0.0
  {
    Config(3.0, 6.0, 5.0, 2.0, climbableMask)
  }

  /** The `orientation` transform's axes, as read during a physics step. */
  datatype Basis = Basis(forward: Vec3, right: Vec3, up: Vec3)

  /** The part of the rigid body the controller touches: `useGravity`,
      `linearVelocity`, and the sum of the impulses queued by
      `AddForce(..., ForceMode.Impulse)` for the engine to integrate. */
  datatype Body = Body(useGravity: bool, velocity: Vec3, impulse: Vec3)

  datatype State = State(
    moveInput: Vec2,
    isSprinting: bool,
    isClimbing: bool,
    requestJump: bool,
    body: Body)

  /** Which of the four outcomes a physics step took. */
  datatype Step = ClimbStep | MoveOnly | MoveAndJump | MoveAndEnterClimb

  /** The state right after `Awake`: C# zero-initialises the fields, and the
      rigid body is whatever the scene gave it. */
  function Awake(body: Body): (s: State)
    ensures s.body == body
    ensures s.moveInput == Zero2 && !s.isSprinting && !s.isClimbing && !s.requestJump
  {
    State(Zero2, false, false, false, body)
  }

  // ---------------------------------------------------------------------------
  // Input callbacks

  function OnMovePerformed(s: State, value: Vec2): (r: State)
    ensures r.moveInput == value
    ensures r.(moveInput := s.moveInput) == s
  {
    s.(moveInput := value)
  }

  function OnMoveCanceled(s: State): (r: State)
    ensures r.moveInput == Zero2
    ensures r.(moveInput := s.moveInput) == s
  {
    s.(moveInput := Zero2)
  }

  function OnSprintPerformed(s: State): (r: State)
    ensures r.isSprinting
    ensures r.(isSprinting := s.isSprinting) == s
  {
    s.(isSprinting := true)
  }

  function OnSprintCanceled(s: State): (r: State)
    ensures !r.isSprinting
    ensures r.(isSprinting := s.isSprinting) == s
  {
    s.(isSprinting := false)
  }

  /** A jump press only raises the request flag; presses are not counted. */
  function OnJumpPerformed(s: State): (r: State)
    ensures r.requestJump
    ensures r.(requestJump := s.requestJump) == s
  {
    s.(requestJump := true)
  }

  // ---------------------------------------------------------------------------
  // Movement solver

  /** `Move` treats its direction as no input at or below this squared length. */
  const MoveThreshold: real := 0.01

  /** `orientation.forward * moveInput.y + orientation.right * moveInput.x`. */
  function MoveDirection(basis: Basis, input: Vec2): Vec3
  {
    Add(Scale(basis.forward, input.y), Scale(basis.right, input.x))
  }

  /** `orientation.up * moveInput.y + orientation.right * moveInput.x`. */
  function ClimbDirection(basis: Basis, input: Vec2): Vec3
  {
    Add(Scale(basis.up, input.y), Scale(basis.right, input.x))
  }

  function Speed(c: Config, sprinting: bool): real
  {
    if sprinting then c.sprintSpeed else c.walkSpeed
  }

  /** The velocity `Move` writes. `steer` stands for what the engine does with a
      direction above the threshold: normalise it and, when the short ray along
      it hits ground-mask geometry, project it on the hit plane and normalise
      again. Only the horizontal components are written; vertical velocity is
      kept. */
  function MoveVelocity(c: Config, input: Vec2, sprinting: bool, basis: Basis,
                        steer: Vec3 -> Vec3, v: Vec3): (r: Vec3)
    ensures r.y == v.y
    ensures SqrMagnitude(MoveDirection(basis, input)) <= MoveThreshold ==> r.x == 0.0 && r.z == 0.0
    ensures SqrMagnitude(MoveDirection(basis, input)) > MoveThreshold ==>
      var m := steer(MoveDirection(basis, input));
      r.x == m.x * Speed(c, sprinting) && r.z == m.z * Speed(c, sprinting)
  {
    var direction := MoveDirection(basis, input);
    if SqrMagnitude(direction) > MoveThreshold then
      var velocity := Scale(steer(direction), Speed(c, sprinting));
      Vec3(velocity.x, v.y, velocity.z)
    else
      Vec3(0.0, v.y, 0.0)
  }

  /** The velocity `Climb` writes: all three components, from input alone. */
  function ClimbVelocity(c: Config, input: Vec2, basis: Basis): (r: Vec3)
    ensures input == Zero2 ==> r == Zero3
  {
    Scale(ClimbDirection(basis, input), c.climbSpeed)
  }

  // ---------------------------------------------------------------------------
  // The physics step

  /** The branch `FixedUpdate` takes, with `IsGrounded()` and `CanClimb()`
      read once for the step. Jump impulse takes priority over climb entry. */
  function Decide(isClimbing: bool, requestJump: bool, grounded: bool, canClimb: bool): (r: Step)
    ensures r == ClimbStep <==> isClimbing
    ensures r == MoveAndJump <==> !isClimbing && requestJump && grounded
    ensures r == MoveAndEnterClimb <==> !isClimbing && requestJump && !grounded && canClimb
    ensures r == MoveOnly <==> !isClimbing && (!requestJump || (!grounded && !canClimb))
  {
    if isClimbing then ClimbStep
    else if requestJump && grounded then MoveAndJump
    else if requestJump && !grounded && canClimb then MoveAndEnterClimb
    else MoveOnly
  }

  /** The impulse `FixedUpdate` queues: `Vector3.up * jumpForce` on a jump, none otherwise. */
  function Impulse(c: Config, step: Step): Vec3
  {
    if step == MoveAndJump then Scale(Up, c.jumpForce) else Zero3
  }

  /** The state after one `FixedUpdate`. */
  function FixedStep(c: Config, s: State, grounded: bool, canClimb: bool,
                     basis: Basis, steer: Vec3 -> Vec3): (r: State)
    // the request is consumed whatever happens
    ensures !r.requestJump
    ensures r.moveInput == s.moveInput && r.isSprinting == s.isSprinting
    // while climbing: only Climb runs
    ensures s.isClimbing ==>
      r.isClimbing && r.body.useGravity == s.body.useGravity && r.body.impulse == s.body.impulse
      && r.body.velocity == ClimbVelocity(c, s.moveInput, basis)
    // otherwise Move runs first
    ensures !s.isClimbing ==>
      r.body.velocity == MoveVelocity(c, s.moveInput, s.isSprinting, basis, steer, s.body.velocity)
    // the impulse is queued exactly on a grounded jump
    ensures r.body.impulse != s.body.impulse ==> !s.isClimbing && s.requestJump && grounded
    ensures !s.isClimbing && s.requestJump && grounded ==>
      r.body.impulse == Add(s.body.impulse, Vec3(0.0, c.jumpForce, 0.0))
    // the mode changes exactly on climb entry, and then gravity goes off
    ensures r.isClimbing != s.isClimbing <==> !s.isClimbing && s.requestJump && !grounded && canClimb
    ensures r.isClimbing != s.isClimbing ==> !r.body.useGravity
    ensures r.body.useGravity != s.body.useGravity ==> r.isClimbing != s.isClimbing
  {
    var step := Decide(s.isClimbing, s.requestJump, grounded, canClimb);
    var velocity := if s.isClimbing then ClimbVelocity(c, s.moveInput, basis)
                    else MoveVelocity(c, s.moveInput, s.isSprinting, basis, steer, s.body.velocity);
    var body := Body(
      if step == MoveAndEnterClimb then false else s.body.useGravity,
      velocity,
      Add(s.body.impulse, Impulse(c, step)));
    s.(isClimbing := s.isClimbing || step == MoveAndEnterClimb,
       requestJump := false,
       body := body)
  }

  // ---------------------------------------------------------------------------
  // Leaving a trigger volume

  /** `OnTriggerExit` for a collider on `layer`. */
  function OnTriggerExit(c: Config, s: State, layer: int): (r: State)
    ensures InMask(layer, c.climbableMask) ==> !r.isClimbing && r.body.useGravity
    ensures !InMask(layer, c.climbableMask) ==> r == s
    ensures r.(isClimbing := s.isClimbing, body := r.body.(useGravity := s.body.useGravity)) == s
  {
    if InMask(layer, c.climbableMask) then
      s.(isClimbing := false, body := s.body.(useGravity := true))
    else
      s
  }

  // ---------------------------------------------------------------------------
  // Properties of the movement solver

  /** Above the threshold, the horizontal speed `Move` writes is the length of
      the steered direction's horizontal part scaled by the walk or sprint
      speed. Nothing else about the input enters: how far the stick is pushed
      matters only through what `steer` makes of the direction. */
  lemma MoveHorizontalSpeed(c: Config, input: Vec2, sprinting: bool, basis: Basis,
                            steer: Vec3 -> Vec3, v: Vec3)
    requires SqrMagnitude(MoveDirection(basis, input)) > MoveThreshold
    ensures SqrHorizontal(MoveVelocity(c, input, sprinting, basis, steer, v))
            == SqrHorizontal(steer(MoveDirection(basis, input))) * (Speed(c, sprinting) * Speed(c, sprinting))
  {
    var m := steer(MoveDirection(basis, input));
    var k := Speed(c, sprinting);
    assert (m.x * k) * (m.x * k) == (m.x * m.x) * (k * k);
    assert (m.z * k) * (m.z * k) == (m.z * m.z) * (k * k);
  }

  /** The corollary for a steered direction of unit horizontal length (an
      unobstructed, horizontal basis): the horizontal speed is exactly the walk
      or sprint speed. A sloped hit plane shortens the horizontal part, and
      walking straight into a vertical wall projects the direction to zero,
      whose `normalized` is zero, so the speed is then 0. */
  lemma MoveSpeedIsConfigured(c: Config, input: Vec2, sprinting: bool, basis: Basis,
                              steer: Vec3 -> Vec3, v: Vec3)
    requires SqrMagnitude(MoveDirection(basis, input)) > MoveThreshold
    requires SqrHorizontal(steer(MoveDirection(basis, input))) == 1.0
    ensures SqrHorizontal(MoveVelocity(c, input, sprinting, basis, steer, v))
            == Speed(c, sprinting) * Speed(c, sprinting)
  {
    MoveHorizontalSpeed(c, input, sprinting, basis, steer, v);
  }

  /** With the stick released, `Move` stops the character horizontally and
      keeps its vertical velocity, whatever the orientation. */
  lemma ReleasedStickStops(c: Config, sprinting: bool, basis: Basis,
                           steer: Vec3 -> Vec3, v: Vec3)
    ensures MoveVelocity(c, Zero2, sprinting, basis, steer, v) == Vec3(0.0, v.y, 0.0)
  {
    assert MoveDirection(basis, Zero2) == Zero3;
  }

  /** `Climb` overwrites the velocity: the previous velocity has no influence
      on the step's result. */
  lemma ClimbIgnoresVelocity(c: Config, s: State, v: Vec3, grounded: bool, canClimb: bool,
                             basis: Basis, steer: Vec3 -> Vec3)
    requires s.isClimbing
    ensures FixedStep(c, s, grounded, canClimb, basis, steer).body.velocity
         == FixedStep(c, s.(body := s.body.(velocity := v)), grounded, canClimb, basis, steer).body.velocity
  {
  }
}
