/**
  The LAN driver node: every joint-state message (parallel lists of joint
  names and positions) is translated into at most one arm command, sent with
  the fixed speed, and at most one gripper servo command, filtered by a
  debounce against the last committed gripper value.

  The hardware calls (`send_radians`, `set_servo_pulsewidth`) are modelled as
  entries of a ghost output trace; whether such a call raises is a boolean
  parameter. An exception anywhere in the callback ends the callback: nothing
  after it happens, and it is swallowed.
 */
module LanDriver {
  import opened Options

  /** The seven arm joints, in the order the arm takes its angles. */
  const TargetJoints: seq<string> := [
    "joint1_to_base",
    "joint2_to_joint1",
    "joint3_to_joint2",
    "joint4_to_joint3",
    "joint5_to_joint4",
    "joint6_to_joint5",
    "joint7_to_joint6"
  ]

  const GripperJoint: string := "endeffector_gripper"
  const GripperPin: int := 18
  const ArmSpeed: int := 80
  /** The value `last_gripper_val` starts with, before any gripper move. */
  const NoCommit: real := -999.0
  /** The debounce threshold on the gripper value. */
  const Threshold: real := 0.01
  /** The gripper value magnitude that closes the gripper fully. */
  const FullStroke: real := 1.57
  const MinPulse: real := 500.0
  const MaxPulse: real := 2500.0

  /** A command handed to the hardware. */
  datatype Command =
    | Arm(angles: seq<real>, speed: int)
    | Servo(pin: int, pulse: real)

  /** Looking a name up in a message: absent, found, or the position list is too short. */
  datatype LookupResult = Missing | Found(value: real) | IndexError

  /** The state of the loop over the target joints: the angles collected so far
      and whether every name so far was present, or the loop raised. */
  datatype Gathered = Partial(angles: seq<real>, foundAll: bool) | Raised

  /** What the arm half of the callback extracts from one message. */
  datatype ArmPose = NoPose | Pose(angles: seq<real>) | PoseFault

  /** The effect of one callback: the commands sent, the new `last_gripper_val`,
      and whether the callback ran to its end (false: an exception was swallowed). */
  datatype StepResult = StepResult(emitted: seq<Command>, last: real, completed: bool)

  function Abs(x: real): real
  {
    if x < 0.0 then -x else x
  }

  /** `i` is the first index at which `key` occurs in `names`. */
  predicate IsFirstIndex(names: seq<string>, key: string, i: int)
  {
    0 <= i < |names| && names[i] == key && forall j :: 0 <= j < i ==> names[j] != key
  }

  /** Python's `names.index(key)`, or `|names|` when `key` does not occur. */
  function IndexOf(names: seq<string>, key: string): (r: nat)
    ensures r <= |names|
    ensures r < |names| <==> key in names
    ensures r < |names| ==> names[r] == key
    ensures forall j :: 0 <= j < r ==> names[j] != key
  {
    if names == [] then 0
    else if names[0] == key then 0
    else 1 + IndexOf(names[1..], key)
  }

  /** `key in names` followed by `positions[names.index(key)]`. */
  function Lookup(names: seq<string>, positions: seq<real>, key: string): (r: LookupResult)
    ensures r == Missing <==> key !in names
    ensures r.Found? <==> exists i :: IsFirstIndex(names, key, i) && i < |positions|
    ensures r.IndexError? <==> exists i :: IsFirstIndex(names, key, i) && i >= |positions|
    ensures r.Found? ==> forall i :: IsFirstIndex(names, key, i) ==> r.value == positions[i]
  {
    var i := IndexOf(names, key);
    assert i < |names| ==> IsFirstIndex(names, key, i);
    assert forall k :: IsFirstIndex(names, key, k) ==> k == i;
    if i == |names| then Missing
    else if i < |positions| then Found(positions[i])
    else IndexError
  }

  /** The gripper pulse width for a gripper value (`move_gripper`): the
      magnitude as a fraction of the full stroke, capped at 1, scaled from the
      maximum pulse down to the minimum. */
  function Pulse(v: real): (r: real)
    ensures MinPulse <= r <= MaxPulse
  {
    var percentage := if Abs(v) / FullStroke > 1.0 then 1.0 else Abs(v) / FullStroke;
    MaxPulse - percentage * (MaxPulse - MinPulse)
  }

  /** The loop over the remaining `targets`, from the accumulator `angles`/`foundAll`:
      a present name appends its position, an absent name clears `foundAll`
      and the loop goes on, a position index out of range raises. */
  function GatherFrom(names: seq<string>, positions: seq<real>, targets: seq<string>,
                      angles: seq<real>, foundAll: bool): Gathered
    decreases |targets|
  {
    if targets == [] then Partial(angles, foundAll)
    else match Lookup(names, positions, targets[0])
      case Missing => GatherFrom(names, positions, targets[1..], angles, false)
      case Found(v) => GatherFrom(names, positions, targets[1..], angles + [v], foundAll)
      case IndexError => Raised
  }

  /** The arm half of the callback: the pose is sent only when all names were found
      and seven angles were collected. */
  function ExtractArm(names: seq<string>, positions: seq<real>): ArmPose
  {
    match GatherFrom(names, positions, TargetJoints, [], true)
    case Raised => PoseFault
    case Partial(angles, foundAll) => if foundAll && |angles| == 7 then Pose(angles) else NoPose
  }

  /** The commands of the arm half, or None when it raised (a lookup, or the send). */
  function ArmStage(names: seq<string>, positions: seq<real>, armOk: bool): Option<seq<Command>>
  {
    match ExtractArm(names, positions)
    case PoseFault => None
    case NoPose => Some([])
    case Pose(angles) => if armOk then Some([Arm(angles, ArmSpeed)]) else None
  }

  /** The gripper half of the callback, after the arm half sent `prior`. */
  function GripperStage(prior: seq<Command>, last: real, gripper: LookupResult, servoOk: bool): StepResult
  {
    match gripper
    case Missing => StepResult(prior, last, true)
    case IndexError => StepResult(prior, last, false)
    case Found(v) =>
      if Abs(v - last) > Threshold then
        if servoOk then StepResult(prior + [Servo(GripperPin, Pulse(v))], v, true)
        else StepResult(prior, last, false)
      else StepResult(prior, last, true)
  }

  /** One whole callback on a message, from the stored gripper value `last`. */
  function Step(last: real, names: seq<string>, positions: seq<real>, armOk: bool, servoOk: bool): StepResult
  {
    match ArmStage(names, positions, armOk)
    case None => StepResult([], last, false)
    case Some(arm) => GripperStage(arm, last, Lookup(names, positions, GripperJoint), servoOk)
  }

  // ---------------------------------------------------------------------------
  // Properties of the specification functions

  /** The seven joint names differ from each other and from the gripper name. */
  lemma TargetJointsDistinct()
    ensures forall i, j :: 0 <= i < j < 7 ==> TargetJoints[i] != TargetJoints[j]
    ensures GripperJoint !in TargetJoints
  {
    forall i, j | 0 <= i < j < 7 ensures TargetJoints[i] != TargetJoints[j] {
      assert TargetJoints[i][5] == "1234567"[i];
      assert TargetJoints[j][5] == "1234567"[j];
    }
  }

  /** The loop over the targets raises exactly when one of them looks up to an
      out-of-range position index. */
  lemma {:induction false} GatherRaised(names: seq<string>, positions: seq<real>, targets: seq<string>,
                                        angles: seq<real>, foundAll: bool)
    ensures GatherFrom(names, positions, targets, angles, foundAll).Raised? <==>
              exists k :: 0 <= k < |targets| && Lookup(names, positions, targets[k]).IndexError?
    decreases |targets|
  {
    if targets != [] {
      var rest := targets[1..];
      assert forall k :: 0 < k < |targets| ==> targets[k] == rest[k - 1];
      match Lookup(names, positions, targets[0])
      case Missing => GatherRaised(names, positions, rest, angles, false);
      case Found(v) => GatherRaised(names, positions, rest, angles + [v], foundAll);
      case IndexError =>
    }
  }

  /** When the loop does not raise, `foundAll` ends true iff it started true and
      every target was present, and the angles only grow, one per target at most. */
  lemma {:induction false} GatherPartial(names: seq<string>, positions: seq<real>, targets: seq<string>,
                                         angles: seq<real>, foundAll: bool)
    ensures var g := GatherFrom(names, positions, targets, angles, foundAll);
      g.Partial? ==>
        && g.foundAll == (foundAll && forall k :: 0 <= k < |targets| ==> targets[k] in names)
        && |angles| <= |g.angles| <= |angles| + |targets|
        && g.angles[..|angles|] == angles
    decreases |targets|
  {
    if targets != [] {
      var rest := targets[1..];
      assert forall k :: 0 < k < |targets| ==> targets[k] == rest[k - 1];
      match Lookup(names, positions, targets[0])
      case Missing =>
        GatherPartial(names, positions, rest, angles, false);
      case Found(v) =>
        GatherPartial(names, positions, rest, angles + [v], foundAll);
        var g := GatherFrom(names, positions, rest, angles + [v], foundAll);
        if g.Partial? {
          assert g.angles[..|angles|] == (g.angles[..|angles| + 1])[..|angles|];
        }
      case IndexError =>
    }
  }

  /** When every target was present, the loop appended exactly one angle per
      target: its first-occurrence position. */
  lemma {:induction false} GatherComplete(names: seq<string>, positions: seq<real>, targets: seq<string>,
                                          angles: seq<real>, foundAll: bool)
    ensures var g := GatherFrom(names, positions, targets, angles, foundAll);
      g.Partial? && g.foundAll ==>
        && |g.angles| == |angles| + |targets|
        && forall k :: 0 <= k < |targets| ==> Lookup(names, positions, targets[k]) == Found(g.angles[|angles| + k])
    decreases |targets|
  {
    if targets != [] {
      var rest := targets[1..];
      assert forall k :: 0 < k < |targets| ==> targets[k] == rest[k - 1];
      match Lookup(names, positions, targets[0])
      case Missing =>
        GatherPartial(names, positions, rest, angles, false);
      case Found(v) =>
        GatherComplete(names, positions, rest, angles + [v], foundAll);
        GatherPartial(names, positions, rest, angles + [v], foundAll);
      case IndexError =>
    }
  }

  /** An arm pose is produced exactly when every one of the seven names is present
      with a position; it lists their first-occurrence positions in the fixed order. */
  lemma ArmAllOrNothing(names: seq<string>, positions: seq<real>)
    ensures ExtractArm(names, positions).Pose? <==>
              forall k :: 0 <= k < 7 ==> Lookup(names, positions, TargetJoints[k]).Found?
    ensures ExtractArm(names, positions).PoseFault? <==>
              exists k :: 0 <= k < 7 && Lookup(names, positions, TargetJoints[k]).IndexError?
    ensures ExtractArm(names, positions).Pose? ==>
              var angles := ExtractArm(names, positions).angles;
              |angles| == 7 && forall k :: 0 <= k < 7 ==> Lookup(names, positions, TargetJoints[k]) == Found(angles[k])
  {
    GatherRaised(names, positions, TargetJoints, [], true);
    GatherPartial(names, positions, TargetJoints, [], true);
    GatherComplete(names, positions, TargetJoints, [], true);
  }

  /** The arm pose depends only on what the seven names look up to, so the order
      of the message's entries, and any other entries, do not matter. */
  lemma {:induction false} GatherFromDependsOnLookups(n1: seq<string>, p1: seq<real>, n2: seq<string>, p2: seq<real>,
                                                      targets: seq<string>, angles: seq<real>, foundAll: bool)
    requires forall k :: 0 <= k < |targets| ==> Lookup(n1, p1, targets[k]) == Lookup(n2, p2, targets[k])
    ensures GatherFrom(n1, p1, targets, angles, foundAll) == GatherFrom(n2, p2, targets, angles, foundAll)
    decreases |targets|
  {
    if targets != [] {
      var rest := targets[1..];
      assert forall k :: 0 < k < |targets| ==> targets[k] == rest[k - 1];
      assert Lookup(n1, p1, targets[0]) == Lookup(n2, p2, targets[0]);
      match Lookup(n1, p1, targets[0])
      case Missing => GatherFromDependsOnLookups(n1, p1, n2, p2, rest, angles, false);
      case Found(v) => GatherFromDependsOnLookups(n1, p1, n2, p2, rest, angles + [v], foundAll);
      case IndexError =>
    }
  }

  lemma ExtractArmDependsOnlyOnLookups(n1: seq<string>, p1: seq<real>, n2: seq<string>, p2: seq<real>)
    requires forall k :: 0 <= k < 7 ==> Lookup(n1, p1, TargetJoints[k]) == Lookup(n2, p2, TargetJoints[k])
    ensures ExtractArm(n1, p1) == ExtractArm(n2, p2)
  {
    GatherFromDependsOnLookups(n1, p1, n2, p2, TargetJoints, [], true);
  }

  /** The gripper half sends at most one command, a servo pulse, after the arm half's. */
  lemma GripperStageShape(prior: seq<Command>, last: real, gripper: LookupResult, servoOk: bool)
    ensures var r := GripperStage(prior, last, gripper, servoOk);
      r.emitted == prior || (gripper.Found? && r.emitted == prior + [Servo(GripperPin, Pulse(gripper.value))])
  {
  }

  /** A callback emits an arm command iff the arm send succeeds and all seven names
      are present; that command is the first one, carries the seven angles in
      the fixed order and the speed 80. */
  lemma StepArmCommand(last: real, names: seq<string>, positions: seq<real>, armOk: bool, servoOk: bool)
    ensures var r := Step(last, names, positions, armOk, servoOk);
      (exists k :: 0 <= k < |r.emitted| && r.emitted[k].Arm?) <==>
        armOk && forall j :: 0 <= j < 7 ==> Lookup(names, positions, TargetJoints[j]).Found?
    ensures var r := Step(last, names, positions, armOk, servoOk);
      forall k :: 0 <= k < |r.emitted| && r.emitted[k].Arm? ==>
        && k == 0
        && r.emitted[k].speed == ArmSpeed
        && |r.emitted[k].angles| == 7
        && forall j :: 0 <= j < 7 ==> Lookup(names, positions, TargetJoints[j]) == Found(r.emitted[k].angles[j])
  {
    ArmAllOrNothing(names, positions);
    StepEmitted(last, names, positions, armOk, servoOk);
    var r := Step(last, names, positions, armOk, servoOk);
    var pose := ExtractArm(names, positions);
    if pose.Pose? && armOk {
      assert r.emitted[0].Arm?;
    }
  }

  /** What a callback emits: the arm command when a pose was found and its send
      succeeded, then at most one servo command. */
  lemma StepEmitted(last: real, names: seq<string>, positions: seq<real>, armOk: bool, servoOk: bool)
    ensures var r := Step(last, names, positions, armOk, servoOk);
            var pose := ExtractArm(names, positions);
            var arm := if pose.Pose? && armOk then [Arm(pose.angles, ArmSpeed)] else [];
      && |arm| <= |r.emitted| <= |arm| + 1
      && r.emitted[..|arm|] == arm
      && forall k :: |arm| <= k < |r.emitted| ==> r.emitted[k].Servo?
  {
    var gripper := Lookup(names, positions, GripperJoint);
    match ArmStage(names, positions, armOk)
    case None =>
    case Some(arm) =>
      GripperStageShape(arm, last, gripper, servoOk);
  }

  /** If one of the seven names is missing, the callback sends no arm command. */
  lemma MissingJointNoArm(last: real, names: seq<string>, positions: seq<real>, armOk: bool, servoOk: bool, j: int)
    requires 0 <= j < 7 && TargetJoints[j] !in names
    ensures forall c :: c in Step(last, names, positions, armOk, servoOk).emitted ==> !c.Arm?
  {
    StepArmCommand(last, names, positions, armOk, servoOk);
    var r := Step(last, names, positions, armOk, servoOk);
    forall c | c in r.emitted ensures !c.Arm? {
      var k :| 0 <= k < |r.emitted| && r.emitted[k] == c;
    }
  }

  /** The debounce: once the arm half has completed and the message carries a
      gripper value `v`, the gripper moves and `v` is stored iff `v` differs from
      the stored value by more than the threshold (and the send succeeds);
      otherwise nothing is sent for the gripper and the stored value stays. */
  lemma Debounce(last: real, names: seq<string>, positions: seq<real>, armOk: bool, servoOk: bool, v: real)
    requires ArmStage(names, positions, armOk).Some?
    requires Lookup(names, positions, GripperJoint) == Found(v)
    ensures var r := Step(last, names, positions, armOk, servoOk);
            var arm := ArmStage(names, positions, armOk).value;
      && (Abs(v - last) > Threshold && servoOk ==>
            r.completed && r.last == v && r.emitted == arm + [Servo(GripperPin, Pulse(v))])
      && (Abs(v - last) > Threshold && !servoOk ==> !r.completed && r.last == last && r.emitted == arm)
      && (Abs(v - last) <= Threshold ==> r.completed && r.last == last && r.emitted == arm)
  {
  }

  /** The stored gripper value changes only through a committed gripper move:
      it becomes the message's gripper value, which passed the debounce, and the
      last command sent is the servo pulse for it. */
  lemma StateChangesOnlyOnCommit(last: real, names: seq<string>, positions: seq<real>, armOk: bool, servoOk: bool)
    ensures var r := Step(last, names, positions, armOk, servoOk);
      r.last != last ==>
        && r.completed
        && Lookup(names, positions, GripperJoint) == Found(r.last)
        && Abs(r.last - last) > Threshold
        && |r.emitted| > 0 && r.emitted[|r.emitted| - 1] == Servo(GripperPin, Pulse(r.last))
  {
  }

  /** A callback cut short by an exception leaves the stored value alone and
      sends no gripper command. */
  lemma FailureLeavesState(last: real, names: seq<string>, positions: seq<real>, armOk: bool, servoOk: bool)
    ensures var r := Step(last, names, positions, armOk, servoOk);
      !r.completed ==> r.last == last && forall k :: 0 <= k < |r.emitted| ==> !r.emitted[k].Servo?
  {
  }

  /** Every gripper command goes to pin 18 with a pulse in [500, 2500]. */
  lemma ServoCommandsBounded(last: real, names: seq<string>, positions: seq<real>, armOk: bool, servoOk: bool)
    ensures var r := Step(last, names, positions, armOk, servoOk);
      forall k :: 0 <= k < |r.emitted| && r.emitted[k].Servo? ==>
        r.emitted[k].pin == GripperPin && MinPulse <= r.emitted[k].pulse <= MaxPulse
  {
    var r := Step(last, names, positions, armOk, servoOk);
    var arm := ArmStage(names, positions, armOk);
    if arm.Some? {
      assert forall k :: 0 <= k < |arm.value| ==> arm.value[k].Arm?;
    }
  }

  /** From the initial value, the first gripper value in [-1, 0] always commits. */
  lemma FirstGripperValueCommits(names: seq<string>, positions: seq<real>, armOk: bool, v: real)
    requires ArmStage(names, positions, armOk).Some?
    requires Lookup(names, positions, GripperJoint) == Found(v)
    requires -1.0 <= v <= 0.0
    ensures Step(NoCommit, names, positions, armOk, true).last == v
    ensures Step(NoCommit, names, positions, armOk, true).completed
  {
    Debounce(NoCommit, names, positions, armOk, true, v);
  }

  lemma PulseEnds()
    ensures Pulse(0.0) == MaxPulse
    ensures Pulse(-0.785) == 1500.0
    ensures Pulse(-1.57) == MinPulse
  {
  }

  lemma PulseSaturates(v: real)
    requires Abs(v) >= FullStroke
    ensures Pulse(v) == MinPulse
  {
  }

  /** The pulse depends only on the magnitude and does not grow with it. */
  lemma PulseMonotone(u: real, v: real)
    requires Abs(u) <= Abs(v)
    ensures Pulse(v) <= Pulse(u)
  {
  }

  lemma PulseSymmetric(v: real)
    ensures Pulse(-v) == Pulse(v)
  {
  }

  // ---------------------------------------------------------------------------
  // Example messages

  /** A message listing exactly the seven joints, in order, without a gripper value:
      exactly one arm command, carrying the positions as given (all zeros, say). */
  lemma ScenarioArmOnly(last: real, positions: seq<real>, servoOk: bool)
    requires |positions| == 7
    ensures Step(last, TargetJoints, positions, true, servoOk) == StepResult([Arm(positions, ArmSpeed)], last, true)
  {
    TargetJointsDistinct();
    forall k | 0 <= k < 7 ensures Lookup(TargetJoints, positions, TargetJoints[k]) == Found(positions[k]) {
      assert IsFirstIndex(TargetJoints, TargetJoints[k], k);
    }
    ArmAllOrNothing(TargetJoints, positions);
    var pose := ExtractArm(TargetJoints, positions);
    assert pose.Pose?;
    assert pose.angles == positions;
    assert ArmStage(TargetJoints, positions, true) == Some([Arm(positions, ArmSpeed)]);
    assert Lookup(TargetJoints, positions, GripperJoint) == Missing;
  }

  /** A message carrying only the gripper value `v`: the arm half sends nothing
      and completes, and the gripper lookup finds `v`. */
  lemma GripperOnlyMessage(v: real, armOk: bool)
    ensures ArmStage([GripperJoint], [v], armOk) == Some([])
    ensures Lookup([GripperJoint], [v], GripperJoint) == Found(v)
  {
    var names, positions := [GripperJoint], [v];
    TargetJointsDistinct();
    forall k | 0 <= k < 7 ensures Lookup(names, positions, TargetJoints[k]) == Missing {
      assert TargetJoints[k] != GripperJoint;
    }
    ArmAllOrNothing(names, positions);
    assert IsFirstIndex(names, GripperJoint, 0);
  }

  /** Only the gripper, from the initial value: one servo command of 1500 and the
      value is stored. */
  lemma ScenarioGripperOnly(armOk: bool)
    ensures Step(NoCommit, [GripperJoint], [-0.785], armOk, true)
         == StepResult([Servo(GripperPin, 1500.0)], -0.785, true)
  {
    GripperOnlyMessage(-0.785, armOk);
    PulseEnds();
  }

  /** Two gripper values 0.005 apart: the second one is suppressed. */
  lemma ScenarioDebounced(armOk: bool)
    ensures var first := Step(NoCommit, [GripperJoint], [-0.5], armOk, true);
            var second := Step(first.last, [GripperJoint], [-0.505], armOk, true);
      first.last == -0.5 && second.emitted == [] && second.last == -0.5
  {
    GripperOnlyMessage(-0.5, armOk);
    GripperOnlyMessage(-0.505, armOk);
  }

  // ---------------------------------------------------------------------------
  // The driver node

  class Driver {
    /** `last_gripper_val`: the last gripper value that was sent. */
    var lastGripperVal: real
    /** The commands the arm and gripper controllers accepted, in order. */
    ghost var sent: seq<Command>

    constructor ()
      ensures lastGripperVal == NoCommit && sent == []
    {
      lastGripperVal := NoCommit;
      sent := [];
    }

    /** `send_radians`: `ok` says whether the call returns or raises. */
    method SendRadians(angles: seq<real>, speed: int, ok: bool) returns (delivered: bool)
      modifies this`sent
      ensures delivered == ok
      ensures sent == old(sent) + (if ok then [Arm(angles, speed)] else [])
    {
      if ok {
        sent := sent + [Arm(angles, speed)];
      }
      delivered := ok;
    }

    /** `set_servo_pulsewidth`: `ok` says whether the call returns or raises. */
    method SetServoPulsewidth(pin: int, pulse: real, ok: bool) returns (delivered: bool)
      modifies this`sent
      ensures delivered == ok
      ensures sent == old(sent) + (if ok then [Servo(pin, pulse)] else [])
    {
      if ok {
        sent := sent + [Servo(pin, pulse)];
      }
      delivered := ok;
    }

    /** `move_gripper`: computes the pulse width and sends it on the gripper pin. */
    method MoveGripper(radianVal: real, ok: bool) returns (delivered: bool)
      modifies this`sent
      ensures delivered == ok
      ensures sent == old(sent) + (if ok then [Servo(GripperPin, Pulse(radianVal))] else [])
    {
      var percentage := Abs(radianVal) / FullStroke;
      if percentage > 1.0 {
        percentage := 1.0;
      }
      var pulse := MaxPulse - percentage * (MaxPulse - MinPulse);
      delivered := SetServoPulsewidth(GripperPin, pulse, ok);
    }

    /** `listener_callback`: one joint-state message, as parallel name and
        position lists. An exception returns early; what was sent before it stays sent. */
    method ListenerCallback(names: seq<string>, positions: seq<real>, armOk: bool, servoOk: bool)
      modifies this
      ensures var r := Step(old(lastGripperVal), names, positions, armOk, servoOk);
        sent == old(sent) + r.emitted && lastGripperVal == r.last
    {
      ghost var last := lastGripperVal;
      var angles, foundAll, raised := CollectArmAngles(names, positions);
      if raised {
        assert ArmStage(names, positions, armOk) == None;
        return;
      }
      assert ExtractArm(names, positions) == if foundAll && |angles| == 7 then Pose(angles) else NoPose;
      if foundAll && |angles| == 7 {
        var ok := SendRadians(angles, ArmSpeed, armOk);
        if !ok {
          assert ArmStage(names, positions, armOk) == None;
          return;
        }
      }
      ghost var arm := ArmStage(names, positions, armOk).value;
      assert sent == old(sent) + arm;
      ghost var gripper := Lookup(names, positions, GripperJoint);
      assert Step(last, names, positions, armOk, servoOk) == GripperStage(arm, last, gripper, servoOk);

      var gi := IndexOf(names, GripperJoint);
      if gi < |names| {
        if gi >= |positions| {
          assert gripper == IndexError;
          return;
        }
        var val := positions[gi];
        assert gripper == Found(val);
        if Abs(val - lastGripperVal) > Threshold {
          var moved := MoveGripper(val, servoOk);
          if !moved {
            return;
          }
          lastGripperVal := val;
        }
      } else {
        assert gripper == Missing;
      }
    }
  }

  /** The loop of `listener_callback` over the seven joint names: `raised` when a
      name's index is past the end of the positions, otherwise the angles of
      the names present, in order, and whether all were present. */
  method CollectArmAngles(names: seq<string>, positions: seq<real>)
      returns (angles: seq<real>, foundAll: bool, raised: bool)
    ensures raised <==> exists k :: 0 <= k < 7 && Lookup(names, positions, TargetJoints[k]).IndexError?
    ensures GatherFrom(names, positions, TargetJoints, [], true) == if raised then Raised else Partial(angles, foundAll)
  {
    GatherRaised(names, positions, TargetJoints, [], true);
    angles, foundAll, raised := [], true, false;
    var i := 0;
    while i < |TargetJoints|
      invariant 0 <= i <= |TargetJoints|
      invariant GatherFrom(names, positions, TargetJoints[i..], angles, foundAll)
             == GatherFrom(names, positions, TargetJoints, [], true)
    {
      var name := TargetJoints[i];
      var idx := IndexOf(names, name);
      if idx < |names| {
        if idx >= |positions| {
          raised := true;
          return;
        }
        angles := angles + [positions[idx]];
      } else {
        foundAll := false;
      }
      i := i + 1;
    }
  }
}
