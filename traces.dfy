/** Runs of the controller: input callbacks, physics steps and trigger exits
    arriving in any order, and what holds across them. */
module Traces {
  import opened Vectors
  import opened Layers
  import opened Locomotion

  /** One thing that can happen to the controller. A physics step carries the
      values the engine supplies for it: the two sensor answers, the
      orientation axes and the steering of `Move`. */
  datatype Event =
    | MovePerformed(value: Vec2)
    | MoveCanceled
    | SprintPerformed
    | SprintCanceled
    | JumpPerformed
    | PhysicsStep(grounded: bool, canClimb: bool, basis: Basis, steer: Vec3 -> Vec3)
    | TriggerExit(layer: int)

  function Apply(c: Config, s: State, e: Event): State
  {
    match e
    case MovePerformed(value) => OnMovePerformed(s, value)
    case MoveCanceled => OnMoveCanceled(s)
    case SprintPerformed => OnSprintPerformed(s)
    case SprintCanceled => OnSprintCanceled(s)
    case JumpPerformed => OnJumpPerformed(s)
    case PhysicsStep(grounded, canClimb, basis, steer) => FixedStep(c, s, grounded, canClimb, basis, steer)
    case TriggerExit(layer) => OnTriggerExit(c, s, layer)
  }

  /** The state after the events, in order. */
  function Run(c: Config, s: State, es: seq<Event>): State
    decreases |es|
  {
    if |es| == 0 then s else Run(c, Apply(c, s, es[0]), es[1..])
  }

  /** The branches the physics steps among the events took, in order. */
  function Outcomes(c: Config, s: State, es: seq<Event>): seq<Step>
    decreases |es|
  {
    if |es| == 0 then []
    else
      var here := if es[0].PhysicsStep? then [Decide(s.isClimbing, s.requestJump, es[0].grounded, es[0].canClimb)] else [];
      here + Outcomes(c, Apply(c, s, es[0]), es[1..])
  }

  function Presses(es: seq<Event>): nat
    decreases |es|
  {
    if |es| == 0 then 0 else (if es[0].JumpPerformed? then 1 else 0) + Presses(es[1..])
  }

  /** Outcomes that use up a jump request: the impulse and climb entry. */
  function Consumed(steps: seq<Step>): nat
    decreases |steps|
  {
    if |steps| == 0 then 0
    else (if steps[0] in {MoveAndJump, MoveAndEnterClimb} then 1 else 0) + Consumed(steps[1..])
  }

  /** `n` jump presses in a row. */
  function JumpPresses(n: nat): (es: seq<Event>)
    ensures |es| == n
    ensures forall i :: 0 <= i < n ==> es[i].JumpPerformed?
  {
    if n == 0 then [] else [JumpPerformed] + JumpPresses(n - 1)
  }

  predicate NoJumpPress(es: seq<Event>)
  {
    forall i :: 0 <= i < |es| ==> !es[i].JumpPerformed?
  }

  predicate NoClimbableExit(c: Config, es: seq<Event>)
  {
    forall i :: 0 <= i < |es| ==> es[i].TriggerExit? ==> !InMask(es[i].layer, c.climbableMask)
  }

  predicate AllClimbSteps(steps: seq<Step>)
  {
    forall i :: 0 <= i < |steps| ==> steps[i] == ClimbStep
  }

  predicate NoJumpUse(steps: seq<Step>)
  {
    forall i :: 0 <= i < |steps| ==> steps[i] == ClimbStep || steps[i] == MoveOnly
  }

  /** Gravity is on exactly when the character is not climbing. */
  predicate GravityMatchesMode(s: State)
  {
    s.body.useGravity == !s.isClimbing
  }

  lemma ConsumedAppend(a: seq<Step>, b: seq<Step>)
    ensures Consumed(a + b) == Consumed(a) + Consumed(b)
  {
    if |a| == 0 {
      assert a + b == b;
    } else {
      assert (a + b)[1..] == a[1..] + b;
      ConsumedAppend(a[1..], b);
    }
  }

  /** Any number of jump presses before a step leave the same state as one:
      the request is sticky and presses do not queue up. */
  lemma {:induction false} PressesCollapse(c: Config, s: State, n: nat)
    requires n >= 1
    ensures Run(c, s, JumpPresses(n)) == OnJumpPerformed(s)
    decreases n
  {
    var es := JumpPresses(n);
    assert es[1..] == JumpPresses(n - 1);
    if n == 1 {
    } else {
      PressesCollapse(c, OnJumpPerformed(s), n - 1);
    }
  }

  /** Each press is used at most once: the impulses and climb entries of a run,
      plus a request still pending at its end, never outnumber the presses in
      it plus a request already pending at its start. */
  lemma {:induction false} EachPressUsedOnce(c: Config, s: State, es: seq<Event>)
    ensures Consumed(Outcomes(c, s, es)) + (if Run(c, s, es).requestJump then 1 else 0)
            <= Presses(es) + (if s.requestJump then 1 else 0)
    decreases |es|
  {
    if |es| > 0 {
      var e := es[0];
      var s' := Apply(c, s, e);
      EachPressUsedOnce(c, s', es[1..]);
      var here := if e.PhysicsStep? then [Decide(s.isClimbing, s.requestJump, e.grounded, e.canClimb)] else [];
      ConsumedAppend(here, Outcomes(c, s', es[1..]));
      if e.PhysicsStep? {
        assert Consumed(here) == (if here[0] in {MoveAndJump, MoveAndEnterClimb} then 1 else 0) + Consumed(here[1..]);
        assert here[1..] == [];
      }
    }
  }

  /** While no collider on a climbable layer is left, a climbing character
      stays climbing: every step is a climb step, gravity keeps its setting and
      no impulse is queued, whatever is pressed. */
  lemma {:induction false} ClimbingPersists(c: Config, s: State, es: seq<Event>)
    requires s.isClimbing
    requires NoClimbableExit(c, es)
    ensures Run(c, s, es).isClimbing
    ensures Run(c, s, es).body.useGravity == s.body.useGravity
    ensures Run(c, s, es).body.impulse == s.body.impulse
    ensures AllClimbSteps(Outcomes(c, s, es))
    decreases |es|
  {
    if |es| > 0 {
      var s' := Apply(c, s, es[0]);
      assert NoClimbableExit(c, es[1..]) by {
        forall i | 0 <= i < |es[1..]| ensures es[1..][i].TriggerExit? ==> !InMask(es[1..][i].layer, c.climbableMask) {
          assert es[1..][i] == es[i + 1];
        }
      }
      ClimbingPersists(c, s', es[1..]);
    }
  }

  /** Without a pending request and without presses, no step jumps or enters
      a climb and the request stays clear, whatever else happens. */
  lemma {:induction false} NoPressNoJump(c: Config, s: State, es: seq<Event>)
    requires !s.requestJump
    requires NoJumpPress(es)
    ensures !Run(c, s, es).requestJump
    ensures Run(c, s, es).body.impulse == s.body.impulse
    ensures NoJumpUse(Outcomes(c, s, es))
    decreases |es|
  {
    if |es| > 0 {
      assert NoJumpPress(es[1..]) by {
        forall i | 0 <= i < |es[1..]| ensures !es[1..][i].JumpPerformed? {
          assert es[1..][i] == es[i + 1];
        }
      }
      NoPressNoJump(c, Apply(c, s, es[0]), es[1..]);
    }
  }

  /** A press is applied at most once: after the step that consumed it, later
      steps without a new press neither jump nor enter a climb. */
  lemma StepNeverReapplies(c: Config, s: State, grounded: bool, canClimb: bool,
                           basis: Basis, steer: Vec3 -> Vec3, es: seq<Event>)
    requires NoJumpPress(es)
    ensures NoJumpUse(Outcomes(c, FixedStep(c, s, grounded, canClimb, basis, steer), es))
  {
    NoPressNoJump(c, FixedStep(c, s, grounded, canClimb, basis, steer), es);
  }

  /** Without a pending request, without presses and without leaving a
      climbable trigger, the mode and the gravity flag never change. */
  lemma {:induction false} NoRequestNoTransition(c: Config, s: State, es: seq<Event>)
    requires !s.requestJump
    requires NoJumpPress(es)
    requires NoClimbableExit(c, es)
    ensures Run(c, s, es).isClimbing == s.isClimbing
    ensures Run(c, s, es).body.useGravity == s.body.useGravity
    decreases |es|
  {
    if |es| > 0 {
      var s' := Apply(c, s, es[0]);
      assert NoJumpPress(es[1..]) && NoClimbableExit(c, es[1..]) by {
        forall i | 0 <= i < |es[1..]|
          ensures !es[1..][i].JumpPerformed?
          ensures es[1..][i].TriggerExit? ==> !InMask(es[1..][i].layer, c.climbableMask)
        {
          assert es[1..][i] == es[i + 1];
        }
      }
      NoRequestNoTransition(c, s', es[1..]);
    }
  }

  /** If gravity is on exactly when not climbing, it stays so through any run:
      climb entry turns gravity off, a climbable exit turns it on, and nothing
      else touches either. */
  lemma {:induction false} GravityTracksMode(c: Config, s: State, es: seq<Event>)
    requires GravityMatchesMode(s)
    ensures GravityMatchesMode(Run(c, s, es))
    decreases |es|
  {
    if |es| > 0 {
      GravityTracksMode(c, Apply(c, s, es[0]), es[1..]);
    }
  }

  /** A body that starts with gravity on, Unity's default, meets the invariant
      right after `Awake`. */
  lemma AwakeGravityMatchesMode(body: Body)
    requires body.useGravity
    ensures GravityMatchesMode(Awake(body))
  {
  }

  /** So from a gravity-enabled body, gravity is on exactly when not climbing
      after every run of events. */
  lemma GravityTracksModeFromAwake(c: Config, body: Body, es: seq<Event>)
    requires body.useGravity
    ensures GravityMatchesMode(Run(c, Awake(body), es))
  {
    AwakeGravityMatchesMode(body);
    GravityTracksMode(c, Awake(body), es);
  }
}
