// The UR5 arm with the Robotiq 85 gripper in the simulator: how position
// commands are routed to the joints. Every simulator call the interface
// makes is appended to a command log; loading the robot description is
// outside the model.

module Ur5Robotiq {
  import opened Wrappers

  datatype ControlMode = PositionControl | VelocityControl | TorqueControl

  /** One call into the simulator. */
  datatype Command =
    | ResetBase(pos: seq<real>, rot: seq<real>)
    | FixBase(pos: seq<real>, rot: seq<real>)
    | ResetJoint(joint: nat, value: real)
    | Motor(joint: nat, mode: ControlMode, value: real)

  // The gripper's joints.
  const LeftKnuckle: nat := 8
  const LeftFinger: nat := 9
  const LeftInnerKnuckle: nat := 12
  const LeftFingertip: nat := 13
  const RightKnuckle: nat := 10
  const RightFinger: nat := 11
  const RightInnerKnuckle: nat := 14
  const RightFingertip: nat := 15

  /** The number of arm joints `arm` accepts. */
  const ArmJoints: nat := 6

  /** The motor commands `arm` issues: element `i` to joint `i`, in order. */
  function ArmCommands(cmd: seq<real>, mode: ControlMode): (r: seq<Command>)
    ensures |r| == |cmd|
  {
    seq(|cmd|, i requires 0 <= i < |cmd| => Motor(i, mode, cmd[i]))
  }

  /**
   * The motor commands `gripper` issues: the knuckles are driven against the
   * command and the fingers with it, left side first.
   */
  function GripperCommands(c: real, mode: ControlMode): (r: seq<Command>)
    ensures |r| == 8
  {
    [Motor(LeftKnuckle, mode, -c), Motor(LeftInnerKnuckle, mode, -c),
     Motor(LeftFinger, mode, c), Motor(LeftFingertip, mode, c),
     Motor(RightKnuckle, mode, -c), Motor(RightInnerKnuckle, mode, -c),
     Motor(RightFinger, mode, c), Motor(RightFingertip, mode, c)]
  }

  /** The joint resets `place` makes before commanding: every given joint, then six gripper joints to 0. */
  function PlaceResets(joints: seq<real>): (r: seq<Command>)
    ensures |r| == |joints| + 6
  {
    seq(|joints|, i requires 0 <= i < |joints| => ResetJoint(i, joints[i]))
    + [ResetJoint(LeftKnuckle, 0.0), ResetJoint(RightKnuckle, 0.0),
       ResetJoint(LeftFinger, 0.0), ResetJoint(RightFinger, 0.0),
       ResetJoint(LeftFingertip, 0.0), ResetJoint(RightFingertip, 0.0)]
  }

  /** The last motor command sent to `joint`, if any. */
  function LastMotor(log: seq<Command>, joint: nat): Option<(ControlMode, real)>
  {
    if log == [] then None
    else if log[|log| - 1].Motor? && log[|log| - 1].joint == joint then
      Some((log[|log| - 1].mode, log[|log| - 1].value))
    else LastMotor(log[..|log| - 1], joint)
  }

  /** The last reset of `joint`, if any. */
  function LastReset(log: seq<Command>, joint: nat): Option<real>
  {
    if log == [] then None
    else if log[|log| - 1].ResetJoint? && log[|log| - 1].joint == joint then Some(log[|log| - 1].value)
    else LastReset(log[..|log| - 1], joint)
  }

  /** What a later stretch of the log commands overrides what came before. */
  lemma {:induction false} LastAppend(a: seq<Command>, b: seq<Command>, joint: nat)
    ensures LastMotor(a + b, joint) == if LastMotor(b, joint).Some? then LastMotor(b, joint) else LastMotor(a, joint)
    ensures LastReset(a + b, joint) == if LastReset(b, joint).Some? then LastReset(b, joint) else LastReset(a, joint)
  {
    if b == [] {
      assert a + b == a;
    } else {
      var init := b[..|b| - 1];
      assert (a + b)[..|a + b| - 1] == a + init;
      assert (a + b)[|a + b| - 1] == b[|b| - 1];
      LastAppend(a, init, joint);
    }
  }

  /** The last command of the prefix `log[..k]` decides it when it concerns `joint`; otherwise `log[..k - 1]` does. */
  lemma PrefixStep(log: seq<Command>, joint: nat, k: nat)
    requires 0 < k <= |log|
    ensures LastMotor(log[..k], joint)
            == if log[k - 1].Motor? && log[k - 1].joint == joint then Some((log[k - 1].mode, log[k - 1].value))
               else LastMotor(log[..k - 1], joint)
    ensures LastReset(log[..k], joint)
            == if log[k - 1].ResetJoint? && log[k - 1].joint == joint then Some(log[k - 1].value)
               else LastReset(log[..k - 1], joint)
  {
    assert log[..k][..k - 1] == log[..k - 1];
  }

  /** `arm(cmd)` leaves joint `i` commanded to `cmd[i]` and issues nothing to any other joint. */
  lemma {:induction false} ArmTargets(cmd: seq<real>, mode: ControlMode, joint: nat)
    ensures LastMotor(ArmCommands(cmd, mode), joint) == if joint < |cmd| then Some((mode, cmd[joint])) else None
    ensures LastReset(ArmCommands(cmd, mode), joint) == None
  {
    if cmd != [] {
      var init := cmd[..|cmd| - 1];
      assert ArmCommands(cmd, mode)[..|cmd| - 1] == ArmCommands(init, mode);
      ArmTargets(init, mode, joint);
    }
  }

  /**
   * `gripper(c)` mirrors the command: knuckles 8, 12, 10 and 14 get `-c`,
   * fingers 9, 13, 11 and 15 get `c`, and no other joint is touched.
   */
  lemma GripperTargets(c: real, mode: ControlMode, joint: nat)
    ensures LastMotor(GripperCommands(c, mode), joint)
            == if joint in {8, 12, 10, 14} then Some((mode, -c))
               else if joint in {9, 13, 11, 15} then Some((mode, c))
               else None
    ensures LastReset(GripperCommands(c, mode), joint) == None
  {
    var g := GripperCommands(c, mode);
    assert g[..8] == g;
    assert g[..0] == [];
    // Unroll the log one command at a time, from the last down to the empty prefix.
    PrefixStep(g, joint, 8);
    PrefixStep(g, joint, 7);
    PrefixStep(g, joint, 6);
    PrefixStep(g, joint, 5);
    PrefixStep(g, joint, 4);
    PrefixStep(g, joint, 3);
    PrefixStep(g, joint, 2);
    PrefixStep(g, joint, 1);
  }

  /**
   * After `place`'s resets, each given joint holds its given value, except
   * that the six gripper joints 8, 9, 10, 11, 13 and 15 are then set to 0;
   * the inner knuckles 12 and 14 are not reset.
   */
  lemma PlaceResetTargets(joints: seq<real>, joint: nat)
    ensures LastReset(PlaceResets(joints), joint)
            == if joint in {8, 9, 10, 11, 13, 15} then Some(0.0)
               else if joint < |joints| then Some(joints[joint])
               else None
  {
    var given := seq(|joints|, i requires 0 <= i < |joints| => ResetJoint(i, joints[i]));
    var gripper := [ResetJoint(LeftKnuckle, 0.0), ResetJoint(RightKnuckle, 0.0),
                    ResetJoint(LeftFinger, 0.0), ResetJoint(RightFinger, 0.0),
                    ResetJoint(LeftFingertip, 0.0), ResetJoint(RightFingertip, 0.0)];
    LastAppend(given, gripper, joint);
    assert gripper[..6] == gripper;
    assert gripper[..0] == [];
    // Unroll the gripper resets one at a time, from the last down to the empty prefix.
    PrefixStep(gripper, joint, 6);
    PrefixStep(gripper, joint, 5);
    PrefixStep(gripper, joint, 4);
    PrefixStep(gripper, joint, 3);
    PrefixStep(gripper, joint, 2);
    PrefixStep(gripper, joint, 1);
    ResetsGiven(joints, joint);
  }

  lemma {:induction false} ResetsGiven(joints: seq<real>, joint: nat)
    ensures LastReset(seq(|joints|, i requires 0 <= i < |joints| => ResetJoint(i, joints[i])), joint)
            == if joint < |joints| then Some(joints[joint]) else None
  {
    if joints != [] {
      var init := joints[..|joints| - 1];
      var s := seq(|joints|, i requires 0 <= i < |joints| => ResetJoint(i, joints[i]));
      assert s[..|joints| - 1] == seq(|init|, i requires 0 <= i < |init| => ResetJoint(i, init[i]));
      ResetsGiven(init, joint);
    }
  }

  /** The robot interface; `log` is every simulator call made so far. */
  class Ur5RobotiqInterface {
    var log: seq<Command>

    constructor ()
      ensures log == []
    {
      log := [];
    }

    /** `arm`: more than six positions raise before any command is sent. */
    method Arm(cmd: seq<real>, mode: ControlMode) returns (r: Result<(), string>)
      modifies this
      ensures r.Failure? <==> |cmd| > ArmJoints
      ensures log == if r.Failure? then old(log) else old(log) + ArmCommands(cmd, mode)
    {
      if |cmd| > ArmJoints {
        return Failure("too many joint positions");
      }
      var i := 0;
      while i < |cmd|
        invariant 0 <= i <= |cmd|
        invariant log == old(log) + ArmCommands(cmd[..i], mode)
      {
        assert ArmCommands(cmd[..i + 1], mode) == ArmCommands(cmd[..i], mode) + [Motor(i, mode, cmd[i])];
        log := log + [Motor(i, mode, cmd[i])];
        i := i + 1;
      }
      assert cmd[..i] == cmd;
      return Success(());
    }

    /** `gripper`: the eight mirrored commands. */
    method Gripper(c: real, mode: ControlMode)
      modifies this
      ensures log == old(log) + GripperCommands(c, mode)
    {
      log := log + [Motor(LeftKnuckle, mode, -c)];
      log := log + [Motor(LeftInnerKnuckle, mode, -c)];
      log := log + [Motor(LeftFinger, mode, c)];
      log := log + [Motor(LeftFingertip, mode, c)];
      log := log + [Motor(RightKnuckle, mode, -c)];
      log := log + [Motor(RightInnerKnuckle, mode, -c)];
      log := log + [Motor(RightFinger, mode, c)];
      log := log + [Motor(RightFingertip, mode, c)];
    }

    /** `act`: seven values, six to the arm and the last to the gripper; any other length fails the assertion. */
    method Act(action: seq<real>) returns (r: Result<(), string>)
      modifies this
      ensures r.Failure? <==> |action| != 7
      ensures log == if r.Failure? then old(log)
                     else old(log) + ArmCommands(action[..6], PositionControl) + GripperCommands(action[6], PositionControl)
    {
      if |action| != 7 {
        return Failure("AssertionError");
      }
      var a := Arm(action[..6], PositionControl);
      Gripper(action[6], PositionControl);
      return Success(());
    }

    /**
     * `place`: moves and fixes the base, resets the joints, then commands
     * the arm to the same positions and opens the gripper. With more than
     * six joint values the resets happen and `arm` then raises.
     */
    method Place(pos: seq<real>, rot: seq<real>, joints: seq<real>) returns (r: Result<(), string>)
      modifies this
      ensures r.Failure? <==> |joints| > ArmJoints
      ensures var before := old(log) + [ResetBase(pos, rot), FixBase(pos, rot)] + PlaceResets(joints);
              log == if r.Failure? then before
                     else before + ArmCommands(joints, PositionControl) + GripperCommands(0.0, PositionControl)
    {
      log := log + [ResetBase(pos, rot), FixBase(pos, rot)];
      var i := 0;
      while i < |joints|
        invariant 0 <= i <= |joints|
        invariant log == old(log) + [ResetBase(pos, rot), FixBase(pos, rot)]
                         + seq(i, k requires 0 <= k < i => ResetJoint(k, joints[k]))
      {
        log := log + [ResetJoint(i, joints[i])];
        i := i + 1;
      }
      log := log + [ResetJoint(LeftKnuckle, 0.0), ResetJoint(RightKnuckle, 0.0)];
      log := log + [ResetJoint(LeftFinger, 0.0), ResetJoint(RightFinger, 0.0)];
      log := log + [ResetJoint(LeftFingertip, 0.0), ResetJoint(RightFingertip, 0.0)];
      r := Arm(joints, PositionControl);
      if r.Success? {
        Gripper(0.0, PositionControl);
      }
    }
  }

  /**
   * After a successful `act`, joints 0 to 5 are commanded to the first six
   * values and the gripper joints mirror the seventh; other joints keep
   * their earlier command.
   */
  lemma ActTargets(before: seq<Command>, action: seq<real>, joint: nat)
    requires |action| == 7
    ensures var log := before + ArmCommands(action[..6], PositionControl) + GripperCommands(action[6], PositionControl);
            LastMotor(log, joint)
            == if joint < 6 then Some((PositionControl, action[joint]))
               else if joint in {8, 12, 10, 14} then Some((PositionControl, -action[6]))
               else if joint in {9, 13, 11, 15} then Some((PositionControl, action[6]))
               else LastMotor(before, joint)
  {
    var arm := ArmCommands(action[..6], PositionControl);
    var grip := GripperCommands(action[6], PositionControl);
    LastAppend(before + arm, grip, joint);
    LastAppend(before, arm, joint);
    ArmTargets(action[..6], PositionControl, joint);
    GripperTargets(action[6], PositionControl, joint);
  }
}
