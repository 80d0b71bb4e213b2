/** The controller component and the rigid body it drives, as objects whose
    fields the callbacks and the physics step update in place. Each method is
    proved to move the objects' state exactly as the matching function of
    module Locomotion says. */
module Controller {
  import opened Vectors
  import opened Layers
  import opened Locomotion

  /** The parts of the engine's `Rigidbody` that the controller reads or writes. */
  class Rigidbody {
    var useGravity: bool
    var linearVelocity: Vec3
    /** Sum of the impulses added since the engine last integrated them. */
    var impulse: Vec3

    constructor (useGravity: bool, linearVelocity: Vec3)
      ensures this.useGravity == useGravity && this.linearVelocity == linearVelocity
      ensures impulse == Zero3
    {
      this.useGravity := useGravity;
      this.linearVelocity := linearVelocity;
      impulse := Zero3;
    }

    ghost function Snapshot(): Body
      reads this
    {
      Body(useGravity, linearVelocity, impulse)
    }

    /** `AddForce(force, ForceMode.Impulse)`: queued, not applied to the
        velocity until the engine integrates. */
    method AddImpulse(force: Vec3)
      modifies this`impulse
      ensures impulse == Add(old(impulse), force)
    {
      impulse := Add(impulse, force);
    }
  }

  class ThirdPersonController {
    const config: Config
    const rb: Rigidbody
    var moveInput: Vec2
    var isSprinting: bool
    var isClimbing: bool
    var requestJump: bool

    /** The controller and its body as one value. */
    ghost function Model(): State
      reads this, rb
    {
      State(moveInput, isSprinting, isClimbing, requestJump, rb.Snapshot())
    }

    /** `Awake`: the component takes the body it finds and starts with its
        fields at their zero values. */
    constructor (config: Config, body: Rigidbody)
      ensures this.config == config && rb == body
      ensures Model() == Awake(body.Snapshot())
    {
      this.config := config;
      rb := body;
      moveInput := Zero2;
      isSprinting := false;
      isClimbing := false;
      requestJump := false;
    }

    method OnMovePerformed(value: Vec2)
      modifies this`moveInput
      ensures Model() == Locomotion.OnMovePerformed(old(Model()), value)
    {
      moveInput := value;
    }

    method OnMoveCanceled()
      modifies this`moveInput
      ensures Model() == Locomotion.OnMoveCanceled(old(Model()))
    {
      moveInput := Zero2;
    }

    method OnSprintPerformed()
      modifies this`isSprinting
      ensures Model() == Locomotion.OnSprintPerformed(old(Model()))
    {
      isSprinting := true;
    }

    method OnSprintCanceled()
      modifies this`isSprinting
      ensures Model() == Locomotion.OnSprintCanceled(old(Model()))
    {
      isSprinting := false;
    }

    method OnJumpPerformed()
      modifies this`requestJump
      ensures Model() == Locomotion.OnJumpPerformed(old(Model()))
    {
      requestJump := true;
    }

    /** One physics step. `grounded` and `canClimb` are the answers of the
        capsule and sphere overlap queries for this step; `basis` and `steer`
        are what the orientation transform and the ray-cast slide give `Move`.
        Returns the branch taken. */
    method FixedUpdate(grounded: bool, canClimb: bool, basis: Basis, steer: Vec3 -> Vec3)
      returns (step: Step)
      modifies this`isClimbing, this`requestJump, rb
      ensures step == Decide(old(isClimbing), old(requestJump), grounded, canClimb)
      ensures Model() == FixedStep(config, old(Model()), grounded, canClimb, basis, steer)
    {
      if isClimbing {
        Climb(basis);
        step := ClimbStep;
      } else {
        Move(basis, steer);
        if requestJump && grounded {
          rb.AddImpulse(Scale(Up, config.jumpForce));
          step := MoveAndJump;
        } else if requestJump && !grounded && canClimb {
          isClimbing := true;
          rb.useGravity := false;
          step := MoveAndEnterClimb;
        } else {
          step := MoveOnly;
        }
      }
      requestJump := false;
    }

    method Move(basis: Basis, steer: Vec3 -> Vec3)
      modifies rb`linearVelocity
      ensures rb.linearVelocity
           == MoveVelocity(config, moveInput, isSprinting, basis, steer, old(rb.linearVelocity))
    {
      var direction := MoveDirection(basis, moveInput);
      var speed := if isSprinting then config.sprintSpeed else config.walkSpeed;
      if SqrMagnitude(direction) > MoveThreshold {
        var movement := steer(direction);
        var velocity := Scale(movement, speed);
        rb.linearVelocity := Vec3(velocity.x, rb.linearVelocity.y, velocity.z);
      } else {
        rb.linearVelocity := Vec3(0.0, rb.linearVelocity.y, 0.0);
      }
    }

    method Climb(basis: Basis)
      modifies rb`linearVelocity
      ensures rb.linearVelocity == ClimbVelocity(config, moveInput, basis)
    {
      var climbDirection := ClimbDirection(basis, moveInput);
      rb.linearVelocity := Scale(climbDirection, config.climbSpeed);
    }

    /** Leaving a trigger volume whose collider is on `layer`. */
    method OnTriggerExit(layer: int)
      modifies this`isClimbing, rb`useGravity
      ensures Model() == Locomotion.OnTriggerExit(config, old(Model()), layer)
    {
      if LayerBit(layer) & config.climbableMask != 0 {
        isClimbing := false;
        rb.useGravity := true;
      }
    }
  }

  /** A client of the class: a jump pressed twice in the air next to a
      climbable surface enters the climb once, turning gravity off and
      consuming the request. The component has its serialized tunables. */
  method EnterClimbEpisode(climbableMask: bv32, basis: Basis, steer: Vec3 -> Vec3)
    returns (step: Step, climbing: bool, gravity: bool, pending: bool)
    ensures step == MoveAndEnterClimb && climbing && !gravity && !pending
  {
    var config := DefaultConfig(climbableMask);
    var body := new Rigidbody(true, Zero3);
    var controller := new ThirdPersonController(config, body);
    controller.OnJumpPerformed();
    controller.OnJumpPerformed();
    step := controller.FixedUpdate(false, true, basis, steer);
    climbing, gravity, pending := controller.isClimbing, body.useGravity, controller.requestJump;
  }
}
