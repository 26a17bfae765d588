/**
 The movements of `morobotClass` (morobot.h): single-joint and whole-robot
 moves gated by the geometry's validity rule, pose moves through the inverse
 kinematics, the default speed, and the calls that only talk to the bus.
 `measured` is the snapshot of servo angles the bus reports (getActAngle)
 while a call runs.
 */
module Motion {
  import opened Angles
  import opened Robot
  import MorobotP
  import Morobot2d

  /* ---------------- dispatch to the geometry ---------------- */

  /** The validity rule of the robot's geometry. */
  ghost predicate ValidAngle(kind: Kind, servoId: nat, a: Angle, measured: seq<int>)
    requires servoId < 3 && ServosOf(kind) <= |measured|
  {
    match kind
    case PArm => MorobotP.ValidAngle(servoId, a, measured)
    case TwoDArm => Morobot2d.ValidAngle(servoId, a)
  }

  /** checkIfAngleValid of the robot's geometry; only the pose flag may change, and only to false. */
  function CheckIfAngleValid(r: Robot, servoId: nat, a: Angle, measured: seq<int>): (c: Checked)
    requires Wellformed(r) && servoId < 3 && r.numServos <= |measured|
    ensures c.ok <==> ValidAngle(r.kind, servoId, a, measured)
    ensures c.robot == r.(tcpPoseIsValid := r.tcpPoseIsValid && c.ok)
  {
    match r.kind
    case PArm => MorobotP.CheckIfAngleValid(r, servoId, a, measured)
    case TwoDArm => Morobot2d.CheckIfAngleValid(r, servoId, a)
  }

  /** An angle that passed the rule still passes once truncated to `long`, as moveToPose hands it on. */
  lemma TruncKeepsValid(kind: Kind, servoId: nat, v: real, measured: seq<int>)
    requires servoId < 3 && ServosOf(kind) <= |measured|
    requires ValidAngle(kind, servoId, Deg(v), measured)
    ensures ValidAngle(kind, servoId, Deg(Trunc(v) as real), measured)
  {
    match kind
    case PArm =>
      TruncWithin(v, MorobotP.JOINT_LIMITS[servoId].lo, MorobotP.JOINT_LIMITS[servoId].hi);
      TruncOfInt(Trunc(v));
    case TwoDArm =>
      TruncWithin(v, Morobot2d.JOINT_LIMITS[servoId].lo, Morobot2d.JOINT_LIMITS[servoId].hi);
  }

  /** The candidate angles the solver yields for a target, after the geometry's own offset correction. */
  function Candidates(kind: Kind, g: Geometry, target: Vec3, ik: (Geometry, Vec3) -> Joints): Joints
  {
    match kind
    case PArm => ik(g, MorobotP.SolverInput(g, target))
    case TwoDArm => ik(g, Morobot2d.SolverInput(g, target))
  }

  function Pick(j: Joints, i: nat): Angle
  {
    if i == 0 then j.t0 else if i == 1 then j.t1 else j.t2
  }

  /** calculateAngles of the robot's geometry: the goal angles are written only if every servo's candidate is valid. */
  function CalculateAngles(r: Robot, target: Vec3, ik: (Geometry, Vec3) -> Joints, measured: seq<int>): (c: Checked)
    requires Wellformed(r) && r.numServos <= |measured|
    ensures Wellformed(c.robot)
    ensures var s := Candidates(r.kind, r.geometry, target, ik);
            c.ok <==> forall i :: 0 <= i < r.numServos ==> ValidAngle(r.kind, i, Pick(s, i), measured)
    ensures var s := Candidates(r.kind, r.geometry, target, ik);
            c.ok ==> && c.robot == r.(goalAngles := c.robot.goalAngles)
                     && (forall i :: 0 <= i < r.numServos ==> c.robot.goalAngles[i] == Pick(s, i))
                     && (forall i :: r.numServos <= i < NUM_MAX_SERVOS ==> c.robot.goalAngles[i] == r.goalAngles[i])
    ensures !c.ok ==> c.robot == r.(tcpPoseIsValid := false)
  {
    match r.kind
    case PArm =>
      var c := MorobotP.CalculateAngles(r, target, ik, measured);
      PickCases(Candidates(r.kind, r.geometry, target, ik));
      c
    case TwoDArm =>
      var c := Morobot2d.CalculateAngles(r, target, ik);
      PickCases(Candidates(r.kind, r.geometry, target, ik));
      c
  }

  lemma PickCases(s: Joints)
    ensures Pick(s, 0) == s.t0 && Pick(s, 1) == s.t1 && Pick(s, 2) == s.t2
  {
  }

  /** updateTCPpose of the robot's geometry: lazy, and always ends with a valid pose. */
  function UpdateTCPpose(r: Robot, fk: (Geometry, seq<int>) -> Vec3, measured: seq<int>): (r': Robot)
    requires Wellformed(r) && r.numServos <= |measured|
    ensures Wellformed(r') && r'.tcpPoseIsValid
    ensures r.tcpPoseIsValid ==> r' == r
    ensures !r.tcpPoseIsValid ==> r' == Settle(r).(actPos := r'.actPos, actOri := r'.actOri, tcpPoseIsValid := true)
  {
    match r.kind
    case PArm => MorobotP.UpdateTCPpose(r, fk, measured)
    case TwoDArm => Morobot2d.UpdateTCPpose(r, fk, measured)
  }

  /** setTCPoffset of the robot's geometry; it always invalidates the pose. */
  function SetTCPoffset(r: Robot, xOffset: real, yOffset: real, zOffset: real): (r': Robot)
    ensures !r'.tcpPoseIsValid
    ensures r' == r.(geometry := r'.geometry, tcpPoseIsValid := false)
    ensures r'.geometry.tcpOffset.x == xOffset && r'.geometry.tcpOffset.z == zOffset
  {
    match r.kind
    case PArm => MorobotP.SetTCPoffset(r, xOffset, yOffset, zOffset)
    case TwoDArm => Morobot2d.SetTCPoffset(r, xOffset, yOffset, zOffset)
  }

  /* ---------------- single-joint moves ---------------- */

  /** The angle a move must reach: the given one (absolute), or the measured one plus the given delta (relative). */
  function GoalOf(servoId: nat, value: int, relative: bool, measured: seq<int>): int
    requires servoId < |measured|
  {
    if relative then measured[servoId] + value else value
  }

  /** The bus command of a move; the bus counts servos from 1. */
  function CommandOf(servoId: nat, value: int, speed: int, relative: bool): Command
  {
    if relative then MoveBy(servoId + 1, value, speed) else MoveTo(servoId + 1, value, speed)
  }

  /** Whether a single-joint move is carried out. */
  ghost predicate Carried(kind: Kind, servoId: nat, value: int, checkValidity: bool, relative: bool, measured: seq<int>)
    requires servoId < 3 && servoId < |measured| && ServosOf(kind) <= |measured|
  {
    !checkValidity || ValidAngle(kind, servoId, Deg(GoalOf(servoId, value, relative, measured) as real), measured)
  }

  /**
   The single-joint move behind moveToAngle and moveAngle: without the check
   the command is sent; with it, it is sent only if the goal angle is valid.
   Either way the cached pose ends invalid and nothing else changes.
   */
  function MoveJoint(r: Robot, servoId: nat, value: int, speed: int, checkValidity: bool, relative: bool,
                     measured: seq<int>): (r': Robot)
    requires Wellformed(r) && servoId < 3 && servoId < |measured| && r.numServos <= |measured|
    ensures Wellformed(r') && !r'.tcpPoseIsValid
    ensures r'.sent == r.sent + (if Carried(r.kind, servoId, value, checkValidity, relative, measured)
                                 then [CommandOf(servoId, value, speed, relative)] else [])
    ensures r' == r.(sent := r'.sent, tcpPoseIsValid := false)
  {
    if !checkValidity then
      r.(sent := r.sent + [CommandOf(servoId, value, speed, relative)], tcpPoseIsValid := false)
    else
      var c := CheckIfAngleValid(r, servoId, Deg(GoalOf(servoId, value, relative, measured) as real), measured);
      if c.ok then c.robot.(sent := r.sent + [CommandOf(servoId, value, speed, relative)], tcpPoseIsValid := false)
      else c.robot
  }

  /** moveToAngle(servoId, angle): an absolute move at the default speed, always checked. */
  function MoveToAngle(r: Robot, servoId: nat, angle: int, measured: seq<int>): (r': Robot)
    requires Wellformed(r) && servoId < 3 && servoId < |measured| && r.numServos <= |measured|
    ensures Wellformed(r') && !r'.tcpPoseIsValid
    ensures r'.sent == r.sent + (if ValidAngle(r.kind, servoId, Deg(angle as real), measured)
                                 then [MoveTo(servoId + 1, angle, r.speedRPM)] else [])
    ensures r' == r.(sent := r'.sent, tcpPoseIsValid := false)
  {
    MoveJoint(r, servoId, angle, r.speedRPM, true, false, measured)
  }

  /** moveToAngle(servoId, angle, speed, checkValidity): the given speed is used for this move only. */
  function MoveToAngleAt(r: Robot, servoId: nat, angle: int, speed: Uint8, checkValidity: bool,
                         measured: seq<int>): (r': Robot)
    requires Wellformed(r) && servoId < 3 && servoId < |measured| && r.numServos <= |measured|
    ensures Wellformed(r') && !r'.tcpPoseIsValid && r'.speedRPM == r.speedRPM
    ensures r'.sent == r.sent + (if !checkValidity || ValidAngle(r.kind, servoId, Deg(angle as real), measured)
                                 then [MoveTo(servoId + 1, angle, speed)] else [])
    ensures r' == r.(sent := r'.sent, tcpPoseIsValid := false)
  {
    MoveJoint(r, servoId, angle, speed, checkValidity, false, measured)
  }

  /** moveAngle(servoId, delta): a relative move; the check is on the goal angle (measured + delta), not on the delta. */
  function MoveAngle(r: Robot, servoId: nat, delta: int, measured: seq<int>): (r': Robot)
    requires Wellformed(r) && servoId < 3 && servoId < |measured| && r.numServos <= |measured|
    ensures Wellformed(r') && !r'.tcpPoseIsValid
    ensures r'.sent == r.sent + (if ValidAngle(r.kind, servoId, Deg((measured[servoId] + delta) as real), measured)
                                 then [MoveBy(servoId + 1, delta, r.speedRPM)] else [])
    ensures r' == r.(sent := r'.sent, tcpPoseIsValid := false)
  {
    MoveJoint(r, servoId, delta, r.speedRPM, true, true, measured)
  }

  /** moveAngle(servoId, delta, speed, checkValidity). */
  function MoveAngleAt(r: Robot, servoId: nat, delta: int, speed: Uint8, checkValidity: bool,
                       measured: seq<int>): (r': Robot)
    requires Wellformed(r) && servoId < 3 && servoId < |measured| && r.numServos <= |measured|
    ensures Wellformed(r') && !r'.tcpPoseIsValid && r'.speedRPM == r.speedRPM
    ensures r'.sent == r.sent + (if !checkValidity || ValidAngle(r.kind, servoId, Deg((measured[servoId] + delta) as real), measured)
                                 then [MoveBy(servoId + 1, delta, speed)] else [])
    ensures r' == r.(sent := r'.sent, tcpPoseIsValid := false)
  {
    MoveJoint(r, servoId, delta, speed, checkValidity, true, measured)
  }

  /** A delta that is valid as a goal angle is not enough: from servo 1 at 10 on morobot-2d, +20 is refused though 20 is in limits. */
  lemma RelativeMoveChecksGoal(r: Robot, measured: seq<int>)
    requires Wellformed(r) && r.kind == TwoDArm && 2 <= |measured| && measured[1] == 10
    ensures ValidAngle(r.kind, 1, Deg(20.0), measured)
    ensures MoveAngle(r, 1, 20, measured).sent == r.sent
  {
  }

  /* ---------------- whole-robot moves ---------------- */

  /**
   The bus snapshots of a whole-robot move, one per servo: `readings[i]` is
   what getActAngle reports while servo i is checked, that is after the
   commands to the servos before it went out.
   */
  ghost predicate Snapshots(kind: Kind, readings: seq<seq<int>>, n: nat)
  {
    n <= |readings| && forall j :: 0 <= j < n ==> ServosOf(kind) <= |readings[j]| && n <= |readings[j]|
  }

  /**
   The commands a whole-robot move sends for servos i .. n-1, in servo
   order: one per servo whose goal passes the rule against that servo's own
   snapshot, none for the others.
   */
  ghost function Accepted(kind: Kind, values: seq<int>, speed: int, relative: bool, readings: seq<seq<int>>, i: nat, n: nat): seq<Command>
    requires n <= 3 && n <= |values| && Snapshots(kind, readings, n)
    decreases n - i
  {
    if i >= n then []
    else (if Carried(kind, i, values[i], true, relative, readings[i])
          then [CommandOf(i, values[i], speed, relative)] else [])
         + Accepted(kind, values, speed, relative, readings, i + 1, n)
  }

  /**
   The servo loop of moveToAngles / moveAngles, from servo i on. Each servo
   is checked and moved on its own: a refused servo does not undo the moves
   already sent (no rollback).
   */
  function MoveEach(r: Robot, values: seq<int>, speed: int, relative: bool, readings: seq<seq<int>>, i: nat): (r': Robot)
    requires Wellformed(r) && r.numServos <= |values| && Snapshots(r.kind, readings, r.numServos) && i <= r.numServos
    decreases r.numServos - i
    ensures Wellformed(r')
    ensures r'.sent == r.sent + Accepted(r.kind, values, speed, relative, readings, i, r.numServos)
    ensures i < r.numServos ==> !r'.tcpPoseIsValid
    ensures r' == r.(sent := r'.sent, tcpPoseIsValid := r'.tcpPoseIsValid)
  {
    if i == r.numServos then r
    else
      var r1 := MoveJoint(r, i, values[i], speed, true, relative, readings[i]);
      var here := if Carried(r.kind, i, values[i], true, relative, readings[i]) then [CommandOf(i, values[i], speed, relative)] else [];
      ConcatAssoc(r.sent, here, Accepted(r.kind, values, speed, relative, readings, i + 1, r.numServos));
      var r2 := MoveEach(r1, values, speed, relative, readings, i + 1);
      r2
  }

  lemma ConcatAssoc<T>(a: seq<T>, b: seq<T>, c: seq<T>)
    ensures (a + b) + c == a + (b + c)
  {
  }

  /** Every command for servos i .. n-1 addresses bus id i+1 or higher. */
  lemma {:induction false} AcceptedBusIds(kind: Kind, values: seq<int>, speed: int, relative: bool, readings: seq<seq<int>>, i: nat, n: nat)
    requires n <= 3 && n <= |values| && Snapshots(kind, readings, n)
    ensures var a := Accepted(kind, values, speed, relative, readings, i, n);
            forall k :: 0 <= k < |a| ==> BusId(a[k]) > i
    decreases n - i
  {
    if i < n {
      AcceptedBusIds(kind, values, speed, relative, readings, i + 1, n);
    }
  }

  function BusId(c: Command): int
  {
    match c
    case MoveTo(id, _, _) => id
    case MoveBy(id, _, _) => id
    case SetZero(id) => id
    case SetBrake(id, _) => id
  }

  /** Servo j gets its command from a whole-robot move iff its goal angle passes the rule against servo j's snapshot. */
  lemma {:induction false} AcceptedExactly(kind: Kind, values: seq<int>, speed: int, relative: bool, readings: seq<seq<int>>,
                                           i: nat, n: nat, j: nat)
    requires n <= 3 && n <= |values| && Snapshots(kind, readings, n) && i <= j < n
    ensures CommandOf(j, values[j], speed, relative) in Accepted(kind, values, speed, relative, readings, i, n)
            <==> ValidAngle(kind, j, Deg(GoalOf(j, values[j], relative, readings[j]) as real), readings[j])
    decreases n - i
  {
    var cmd := CommandOf(j, values[j], speed, relative);
    var here := if Carried(kind, i, values[i], true, relative, readings[i]) then [CommandOf(i, values[i], speed, relative)] else [];
    var rest := Accepted(kind, values, speed, relative, readings, i + 1, n);
    assert Accepted(kind, values, speed, relative, readings, i, n) == here + rest;
    assert cmd in here + rest <==> cmd in here || cmd in rest;
    if i < j {
      AcceptedExactly(kind, values, speed, relative, readings, i + 1, n, j);
      assert cmd !in here;
    } else {
      AcceptedBusIds(kind, values, speed, relative, readings, i + 1, n);
      assert cmd !in rest by {
        forall k | 0 <= k < |rest| ensures rest[k] != cmd {
          assert BusId(rest[k]) > i + 1;
        }
      }
    }
  }

  /** When every goal passes against its snapshot, a whole-robot move sends one command per servo, in servo order. */
  lemma {:induction false} AcceptedAll(kind: Kind, values: seq<int>, speed: int, relative: bool, readings: seq<seq<int>>, i: nat, n: nat)
    requires n <= 3 && n <= |values| && Snapshots(kind, readings, n) && i <= n
    requires forall j :: i <= j < n ==> ValidAngle(kind, j, Deg(GoalOf(j, values[j], relative, readings[j]) as real), readings[j])
    ensures var a := Accepted(kind, values, speed, relative, readings, i, n);
            && |a| == n - i
            && forall k :: 0 <= k < n - i ==> a[k] == CommandOf(i + k, values[i + k], speed, relative)
    decreases n - i
  {
    if i < n {
      AcceptedAll(kind, values, speed, relative, readings, i + 1, n);
      var a := Accepted(kind, values, speed, relative, readings, i, n);
      var rest := Accepted(kind, values, speed, relative, readings, i + 1, n);
      assert Carried(kind, i, values[i], true, relative, readings[i]);
      assert a == [CommandOf(i, values[i], speed, relative)] + rest;
      forall k | 0 < k < n - i ensures a[k] == CommandOf(i + k, values[i + k], speed, relative) {
        assert a[k] == rest[k - 1];
      }
    }
  }

  /** moveToAngles(angles): waits for the robot, then moves every servo whose angle is valid, at the default speed. */
  function MoveToAngles(r: Robot, angles: seq<int>, readings: seq<seq<int>>): (r': Robot)
    requires Wellformed(r) && r.numServos <= |angles| && Snapshots(r.kind, readings, r.numServos)
    ensures Wellformed(r') && !r'.tcpPoseIsValid
    ensures r'.sent == r.sent + Accepted(r.kind, angles, r.speedRPM, false, readings, 0, r.numServos)
    ensures r' == r.(sent := r'.sent, tcpPoseIsValid := false, angleReached := Settle(r).angleReached)
  {
    MoveEach(Settle(r), angles, r.speedRPM, false, readings, 0)
  }

  /** Servo j is sent to angles[j] by moveToAngles iff that angle passes the rule against servo j's snapshot; a refused servo is skipped. */
  lemma MoveToAnglesSendsExactlyValid(r: Robot, angles: seq<int>, readings: seq<seq<int>>, j: nat)
    requires Wellformed(r) && r.numServos <= |angles| && Snapshots(r.kind, readings, r.numServos) && j < r.numServos
    ensures var r' := MoveToAngles(r, angles, readings);
            MoveTo(j + 1, angles[j], r.speedRPM) in r'.sent[|r.sent|..]
            <==> ValidAngle(r.kind, j, Deg(angles[j] as real), readings[j])
  {
    var r' := MoveToAngles(r, angles, readings);
    assert r'.sent[|r.sent|..] == Accepted(r.kind, angles, r.speedRPM, false, readings, 0, r.numServos);
    AcceptedExactly(r.kind, angles, r.speedRPM, false, readings, 0, r.numServos, j);
  }

  /**
   On morobot-p servo 2's coupling check reads servo 1 as the bus reports it
   after servo 1 was commanded: with servo 1 already at its new goal 60, the
   goal 28 for servo 2 is refused (90 - 60 - 28 = 2), though it passes
   against the old reading 30 (90 - 30 - 28 = 32).
   */
  lemma CouplingSeesEarlierMove(r: Robot)
    requires Wellformed(r) && r.kind == PArm
    ensures var before := [0, 30, 0];
            var after := [0, 60, 0];
            && MoveTo(3, 28, r.speedRPM) !in MoveToAngles(r, [0, 60, 28], [before, before, after]).sent[|r.sent|..]
            && MoveTo(3, 28, r.speedRPM) in MoveToAngles(r, [0, 60, 28], [before, before, before]).sent[|r.sent|..]
  {
    var before := [0, 30, 0];
    var after := [0, 60, 0];
    assert Trunc(28.0) == 28 && Trunc(60.0) == 60;
    MoveToAnglesSendsExactlyValid(r, [0, 60, 28], [before, before, after], 2);
    MoveToAnglesSendsExactlyValid(r, [0, 60, 28], [before, before, before], 2);
  }

  /** moveToAngles(angles, speed): the same with an explicit speed for this move. */
  function MoveToAnglesAt(r: Robot, angles: seq<int>, speed: Uint8, readings: seq<seq<int>>): (r': Robot)
    requires Wellformed(r) && r.numServos <= |angles| && Snapshots(r.kind, readings, r.numServos)
    ensures Wellformed(r') && !r'.tcpPoseIsValid && r'.speedRPM == r.speedRPM
    ensures r'.sent == r.sent + Accepted(r.kind, angles, speed, false, readings, 0, r.numServos)
    ensures r' == r.(sent := r'.sent, tcpPoseIsValid := false, angleReached := Settle(r).angleReached)
  {
    MoveEach(Settle(r), angles, speed, false, readings, 0)
  }

  /** moveToAngles(phi0, phi1, phi2): the three-servo shorthand. */
  function MoveToAngles3(r: Robot, phi0: int, phi1: int, phi2: int, readings: seq<seq<int>>): (r': Robot)
    requires Wellformed(r) && Snapshots(r.kind, readings, r.numServos)
    ensures r' == MoveToAngles(r, [phi0, phi1, phi2], readings)
  {
    MoveEach(Settle(r), [phi0, phi1, phi2], r.speedRPM, false, readings, 0)
  }

  /** moveAngles(deltas): waits, then moves every servo whose goal (its reading + delta) is valid. */
  function MoveAngles(r: Robot, deltas: seq<int>, readings: seq<seq<int>>): (r': Robot)
    requires Wellformed(r) && r.numServos <= |deltas| && Snapshots(r.kind, readings, r.numServos)
    ensures Wellformed(r') && !r'.tcpPoseIsValid
    ensures r'.sent == r.sent + Accepted(r.kind, deltas, r.speedRPM, true, readings, 0, r.numServos)
    ensures r' == r.(sent := r'.sent, tcpPoseIsValid := false, angleReached := Settle(r).angleReached)
  {
    MoveEach(Settle(r), deltas, r.speedRPM, true, readings, 0)
  }

  /** Servo j is moved by deltas[j] iff the goal it would reach, its reading plus deltas[j], passes the rule. */
  lemma MoveAnglesSendsExactlyValid(r: Robot, deltas: seq<int>, readings: seq<seq<int>>, j: nat)
    requires Wellformed(r) && r.numServos <= |deltas| && Snapshots(r.kind, readings, r.numServos) && j < r.numServos
    ensures var r' := MoveAngles(r, deltas, readings);
            MoveBy(j + 1, deltas[j], r.speedRPM) in r'.sent[|r.sent|..]
            <==> ValidAngle(r.kind, j, Deg((readings[j][j] + deltas[j]) as real), readings[j])
  {
    var r' := MoveAngles(r, deltas, readings);
    assert r'.sent[|r.sent|..] == Accepted(r.kind, deltas, r.speedRPM, true, readings, 0, r.numServos);
    AcceptedExactly(r.kind, deltas, r.speedRPM, true, readings, 0, r.numServos, j);
  }

  /** moveAngles(deltas, speed). */
  function MoveAnglesAt(r: Robot, deltas: seq<int>, speed: Uint8, readings: seq<seq<int>>): (r': Robot)
    requires Wellformed(r) && r.numServos <= |deltas| && Snapshots(r.kind, readings, r.numServos)
    ensures Wellformed(r') && !r'.tcpPoseIsValid && r'.speedRPM == r.speedRPM
    ensures r'.sent == r.sent + Accepted(r.kind, deltas, speed, true, readings, 0, r.numServos)
    ensures r' == r.(sent := r'.sent, tcpPoseIsValid := false, angleReached := Settle(r).angleReached)
  {
    MoveEach(Settle(r), deltas, speed, true, readings, 0)
  }

  /** No rollback: on morobot-2d a valid servo 0 is moved even when servo 1 is refused. */
  lemma PartialMoveIsKept(r: Robot, readings: seq<seq<int>>)
    requires Wellformed(r) && r.kind == TwoDArm && Snapshots(r.kind, readings, 2)
    ensures var r' := MoveToAngles(r, [0, 100], readings);
            r'.sent == r.sent + [MoveTo(1, 0, r.speedRPM)]
  {
  }

  /* ---------------- pose moves ---------------- */

  /** The goal angles of the robot's servos as the `long`s moveToPose passes on. */
  function GoalLongs(r: Robot): (g: seq<int>)
    requires Wellformed(r) && forall i :: 0 <= i < r.numServos ==> r.goalAngles[i].Deg?
    ensures |g| == r.numServos
    ensures forall i :: 0 <= i < r.numServos ==> g[i] == Trunc(r.goalAngles[i].v)
  {
    seq(r.numServos, i requires 0 <= i < r.numServos => Trunc(r.goalAngles[i].v))
  }

  /**
   moveToPose: waits, refreshes the pose and solves the inverse kinematics
   against the snapshot `measured`; if every candidate is valid, it stores
   them as goal angles, moves each servo through the checked single-joint
   move (servo i re-checked against `readings[i]`), and records the target
   as the new pose without measuring it, whatever the re-checks refused. An
   unreachable target sends nothing and leaves the pose invalid.
   */
  function MoveToPose(r: Robot, target: Vec3, kin: Kinematics, measured: seq<int>, readings: seq<seq<int>>): (c: Checked)
    requires Wellformed(r) && r.numServos <= |measured| && Snapshots(r.kind, readings, r.numServos)
    ensures Wellformed(c.robot) && c.robot.kind == r.kind && c.robot.speedRPM == r.speedRPM
    ensures var s := Candidates(r.kind, r.geometry, target, kin.ik);
            c.ok <==> forall i :: 0 <= i < r.numServos ==> ValidAngle(r.kind, i, Pick(s, i), measured)
    ensures !c.ok ==> c.robot.sent == r.sent && !c.robot.tcpPoseIsValid
    ensures c.ok ==> c.robot.tcpPoseIsValid && c.robot.actPos == target
    ensures var s := Candidates(r.kind, r.geometry, target, kin.ik);
            c.ok ==> forall i :: 0 <= i < r.numServos ==> c.robot.goalAngles[i] == Pick(s, i)
    ensures c.ok ==> c.robot.sent == r.sent + Accepted(r.kind, GoalLongs(c.robot), r.speedRPM, false, readings, 0, r.numServos)
  {
    var r1 := Settle(r);
    var r2 := UpdateTCPpose(r1, kin.fk, measured);
    var c := CalculateAngles(r2, target, kin.ik, measured);
    if !c.ok then c
    else
      var goals := GoalLongs(c.robot);
      var r3 := MoveEach(c.robot, goals, c.robot.speedRPM, false, readings, 0);
      Checked(true, r3.(actPos := target, tcpPoseIsValid := true))
  }

  /** Servo j gets its goal from a successful moveToPose iff the truncated goal passes the re-check against servo j's snapshot. */
  lemma PoseMoveSendsExactlyValid(r: Robot, target: Vec3, kin: Kinematics, measured: seq<int>, readings: seq<seq<int>>, j: nat)
    requires Wellformed(r) && r.numServos <= |measured| && Snapshots(r.kind, readings, r.numServos) && j < r.numServos
    ensures var c := MoveToPose(r, target, kin, measured, readings);
            var s := Candidates(r.kind, r.geometry, target, kin.ik);
            c.ok ==> && Pick(s, j).Deg?
                     && (MoveTo(j + 1, Trunc(Pick(s, j).v), r.speedRPM) in c.robot.sent[|r.sent|..]
                         <==> ValidAngle(r.kind, j, Deg(Trunc(Pick(s, j).v) as real), readings[j]))
  {
    var c := MoveToPose(r, target, kin, measured, readings);
    if c.ok {
      var goals := GoalLongs(c.robot);
      assert c.robot.sent[|r.sent|..] == Accepted(r.kind, goals, r.speedRPM, false, readings, 0, r.numServos);
      AcceptedExactly(r.kind, goals, r.speedRPM, false, readings, 0, r.numServos, j);
    }
  }

  /** The coupling entries of two snapshots agree (morobot-2d's rule reads no snapshot). */
  ghost predicate SameCoupling(kind: Kind, a: seq<int>, b: seq<int>)
  {
    ServosOf(kind) <= |a| && ServosOf(kind) <= |b| && (kind == PArm ==> a[1] == b[1] && a[2] == b[2])
  }

  /**
   When no servo's snapshot has moved on the coupling entries since
   calculateAngles, every re-check of a successful moveToPose passes, so
   each servo gets exactly one command, in servo order.
   */
  lemma PoseMoveSendsAll(r: Robot, target: Vec3, kin: Kinematics, measured: seq<int>, readings: seq<seq<int>>)
    requires Wellformed(r) && r.numServos <= |measured| && Snapshots(r.kind, readings, r.numServos)
    requires forall j :: 0 <= j < r.numServos ==> SameCoupling(r.kind, readings[j], measured)
    ensures var c := MoveToPose(r, target, kin, measured, readings);
            var s := Candidates(r.kind, r.geometry, target, kin.ik);
            c.ok ==> && |c.robot.sent| == |r.sent| + r.numServos
                     && c.robot.sent[..|r.sent|] == r.sent
                     && forall i :: 0 <= i < r.numServos ==>
                          Pick(s, i).Deg? && c.robot.sent[|r.sent| + i] == MoveTo(i + 1, Trunc(Pick(s, i).v), r.speedRPM)
  {
    var c := MoveToPose(r, target, kin, measured, readings);
    if c.ok {
      var s := Candidates(r.kind, r.geometry, target, kin.ik);
      var goals := GoalLongs(c.robot);
      PoseGoalsAllSent(r.kind, s, goals, r.speedRPM, measured, readings);
      var a := Accepted(r.kind, goals, r.speedRPM, false, readings, 0, r.numServos);
      assert c.robot.sent == r.sent + a;
      forall i | 0 <= i < r.numServos
        ensures c.robot.sent[|r.sent| + i] == MoveTo(i + 1, Trunc(Pick(s, i).v), r.speedRPM)
      {
        assert c.robot.sent[|r.sent| + i] == a[i];
      }
    }
  }

  /** Truncated candidates that passed against one snapshot all pass again against snapshots agreeing with it on the coupling. */
  lemma PoseGoalsAllSent(kind: Kind, s: Joints, goals: seq<int>, speed: int, measured: seq<int>, readings: seq<seq<int>>)
    requires ServosOf(kind) <= |measured| && Snapshots(kind, readings, ServosOf(kind))
    requires forall j :: 0 <= j < ServosOf(kind) ==> ValidAngle(kind, j, Pick(s, j), measured) && SameCoupling(kind, readings[j], measured)
    requires |goals| == ServosOf(kind) && forall j :: 0 <= j < ServosOf(kind) ==> Pick(s, j).Deg? && goals[j] == Trunc(Pick(s, j).v)
    ensures var a := Accepted(kind, goals, speed, false, readings, 0, ServosOf(kind));
            && |a| == ServosOf(kind)
            && forall i :: 0 <= i < ServosOf(kind) ==> a[i] == MoveTo(i + 1, Trunc(Pick(s, i).v), speed)
  {
    var n := ServosOf(kind);
    forall j | 0 <= j < n
      ensures ValidAngle(kind, j, Deg(GoalOf(j, goals[j], false, readings[j]) as real), readings[j])
    {
      TruncKeepsValid(kind, j, Pick(s, j).v, measured);
      ValidAngleFrame(kind, j, Deg(goals[j] as real), measured, readings[j]);
    }
    AcceptedAll(kind, goals, speed, false, readings, 0, n);
  }

  /** The rule gives the same answer on two snapshots that agree on the coupling entries. */
  lemma ValidAngleFrame(kind: Kind, servoId: nat, a: Angle, m1: seq<int>, m2: seq<int>)
    requires servoId < 3 && SameCoupling(kind, m1, m2)
    ensures ValidAngle(kind, servoId, a, m1) == ValidAngle(kind, servoId, a, m2)
  {
  }

  /**
   Not every servo need move although moveToPose answers true: on morobot-p
   the target's candidates (0, 60, 28) pass calculateAngles with servo 1
   at 30, but once servo 1 reports its new goal 60, the re-check of servo 2
   refuses 28; the target is recorded as the pose all the same.
   */
  lemma PoseMoveMayDropServo(r: Robot, target: Vec3, fk: (Geometry, seq<int>) -> Vec3)
    requires Wellformed(r) && r.kind == PArm
    ensures var kin := Kinematics((g: Geometry, p: Vec3) => Joints(Deg(0.0), Deg(60.0), Deg(28.0)), fk);
            var before := [0, 30, 0];
            var c := MoveToPose(r, target, kin, before, [before, before, [0, 60, 0]]);
            && c.ok && c.robot.tcpPoseIsValid && c.robot.actPos == target
            && MoveTo(3, 28, r.speedRPM) !in c.robot.sent[|r.sent|..]
  {
    var kin := Kinematics((g: Geometry, p: Vec3) => Joints(Deg(0.0), Deg(60.0), Deg(28.0)), fk);
    var before := [0, 30, 0];
    var after := [0, 60, 0];
    var s := Candidates(r.kind, r.geometry, target, kin.ik);
    assert s == Joints(Deg(0.0), Deg(60.0), Deg(28.0));
    PickCases(s);
    assert ValidAngle(PArm, 0, Deg(0.0), before) && ValidAngle(PArm, 1, Deg(60.0), before);
    assert ValidAngle(PArm, 2, Deg(28.0), before);
    assert Trunc(28.0) == 28;
    assert !ValidAngle(PArm, 2, Deg(28.0), after);
    PoseMoveSendsExactlyValid(r, target, kin, before, [before, before, after], 2);
  }

  /** moveXYZ: refreshes the pose and moves the TCP by the offsets; the answer is the reachability of that target. */
  function MoveXYZ(r: Robot, xOffset: real, yOffset: real, zOffset: real, kin: Kinematics, measured: seq<int>,
                   readings: seq<seq<int>>): (c: Checked)
    requires Wellformed(r) && r.numServos <= |measured| && Snapshots(r.kind, readings, r.numServos)
    ensures var p := UpdateTCPpose(r, kin.fk, measured).actPos;
            c.ok ==> c.robot.actPos == Vec3(p.x + xOffset, p.y + yOffset, p.z + zOffset) && c.robot.tcpPoseIsValid
    ensures !c.ok ==> c.robot.sent == r.sent && !c.robot.tcpPoseIsValid
    ensures var p := UpdateTCPpose(r, kin.fk, measured).actPos;
            var s := Candidates(r.kind, r.geometry, Vec3(p.x + xOffset, p.y + yOffset, p.z + zOffset), kin.ik);
            c.ok <==> forall i :: 0 <= i < r.numServos ==> ValidAngle(r.kind, i, Pick(s, i), measured)
    ensures Wellformed(c.robot) && c.robot.kind == r.kind
    ensures var p := UpdateTCPpose(r, kin.fk, measured).actPos;
            var s := Candidates(r.kind, r.geometry, Vec3(p.x + xOffset, p.y + yOffset, p.z + zOffset), kin.ik);
            c.ok ==> forall i :: 0 <= i < r.numServos ==> c.robot.goalAngles[i] == Pick(s, i)
    ensures c.ok ==> c.robot.sent == r.sent + Accepted(r.kind, GoalLongs(c.robot), r.speedRPM, false, readings, 0, r.numServos)
  {
    var r1 := UpdateTCPpose(r, kin.fk, measured);
    MoveToPose(r1, Add(r1.actPos, Vec3(xOffset, yOffset, zOffset)), kin, measured, readings)
  }

  /** moveInDirection: refreshes the pose and adds the value on the named axis; any other axis adds nothing. */
  function MoveInDirection(r: Robot, axis: char, value: real, kin: Kinematics, measured: seq<int>,
                           readings: seq<seq<int>>): (c: Checked)
    requires Wellformed(r) && r.numServos <= |measured| && Snapshots(r.kind, readings, r.numServos)
    ensures !c.ok ==> c.robot.sent == r.sent && !c.robot.tcpPoseIsValid
    ensures c.ok ==> c.robot.tcpPoseIsValid
    ensures var p := UpdateTCPpose(r, kin.fk, measured).actPos;
            c.ok ==> c.robot.actPos == (if axis == 'x' then p.(x := p.x + value)
                                        else if axis == 'y' then p.(y := p.y + value)
                                        else if axis == 'z' then p.(z := p.z + value)
                                        else p)
    ensures Wellformed(c.robot) && c.robot.kind == r.kind
    ensures var p := UpdateTCPpose(r, kin.fk, measured).actPos;
            var s := Candidates(r.kind, r.geometry, Shift(p, axis, value), kin.ik);
            c.ok <==> forall i :: 0 <= i < r.numServos ==> ValidAngle(r.kind, i, Pick(s, i), measured)
    ensures var p := UpdateTCPpose(r, kin.fk, measured).actPos;
            var s := Candidates(r.kind, r.geometry, Shift(p, axis, value), kin.ik);
            c.ok ==> forall i :: 0 <= i < r.numServos ==> c.robot.goalAngles[i] == Pick(s, i)
    ensures c.ok ==> c.robot.sent == r.sent + Accepted(r.kind, GoalLongs(c.robot), r.speedRPM, false, readings, 0, r.numServos)
  {
    var r1 := UpdateTCPpose(r, kin.fk, measured);
    MoveToPose(r1, Shift(r1.actPos, axis, value), kin, measured, readings)
  }

  /** The position moved by `value` along the named axis; any other axis leaves it where it is. */
  function Shift(p: Vec3, axis: char, value: real): Vec3
  {
    if axis == 'x' then p.(x := p.x + value)
    else if axis == 'y' then p.(y := p.y + value)
    else if axis == 'z' then p.(z := p.z + value)
    else p
  }

  /** The offset vector moveInDirection amounts to. */
  function AxisOffset(axis: char, value: real): Vec3
  {
    if axis == 'x' then Vec3(value, 0.0, 0.0)
    else if axis == 'y' then Vec3(0.0, value, 0.0)
    else if axis == 'z' then Vec3(0.0, 0.0, value)
    else Vec3(0.0, 0.0, 0.0)
  }

  /** moveInDirection(axis, v) is moveXYZ with v on that axis and 0 on the others. */
  lemma MoveInDirectionIsMoveXYZ(r: Robot, axis: char, value: real, kin: Kinematics, measured: seq<int>, readings: seq<seq<int>>)
    requires Wellformed(r) && r.numServos <= |measured| && Snapshots(r.kind, readings, r.numServos)
    ensures var d := AxisOffset(axis, value);
            MoveInDirection(r, axis, value, kin, measured, readings) == MoveXYZ(r, d.x, d.y, d.z, kin, measured, readings)
  {
    var r1 := UpdateTCPpose(r, kin.fk, measured);
    var d := AxisOffset(axis, value);
    assert Shift(r1.actPos, axis, value) == Add(r1.actPos, Vec3(d.x, d.y, d.z));
  }

  /* ---------------- speed, home, bus-only calls ---------------- */

  /**
   setSpeedRPM: changes only the default speed, never moves a motor, and
   keeps it within the accepted 1 .. 50 RPM (too high is capped, 0 is raised to 1).
   */
  function SetSpeedRPM(r: Robot, speed: Uint8): (r': Robot)
    ensures 1 <= r'.speedRPM <= SERVO_MAX_SPEED_RPM
    ensures 1 <= speed <= SERVO_MAX_SPEED_RPM ==> r'.speedRPM == speed
    ensures speed > SERVO_MAX_SPEED_RPM ==> r'.speedRPM == SERVO_MAX_SPEED_RPM
    ensures r' == r.(speedRPM := r'.speedRPM)
  {
    if speed > SERVO_MAX_SPEED_RPM then r.(speedRPM := SERVO_MAX_SPEED_RPM)
    else if speed < 1 then r.(speedRPM := 1)
    else r.(speedRPM := speed)
  }

  /** setSpeedRPM as written: the lower guard `speed < 0` can never hold for a `uint8_t`. */
  function SetSpeedRPMAsWritten(r: Robot, speed: Uint8): (r': Robot)
    ensures r'.speedRPM <= SERVO_MAX_SPEED_RPM
    ensures r' == r.(speedRPM := r'.speedRPM)
  {
    if speed > SERVO_MAX_SPEED_RPM then r.(speedRPM := SERVO_MAX_SPEED_RPM)
    else if speed < 0 then r.(speedRPM := 1)
    else r.(speedRPM := speed)
  }

  /** As written, speed 0 is stored as the default speed, outside 1 .. 50; the intended guard raises it to 1. */
  lemma ZeroSpeedSlipsThrough(r: Robot)
    ensures SetSpeedRPMAsWritten(r, 0).speedRPM == 0
    ensures SetSpeedRPM(r, 0).speedRPM == 1
    ensures forall s: Uint8 :: 1 <= s ==> SetSpeedRPMAsWritten(r, s) == SetSpeedRPM(r, s)
  {
  }

  /** A speed given to one move does not become the default. */
  lemma ExplicitSpeedIsPerMove(r: Robot, servoId: nat, angle: int, speed: Uint8, measured: seq<int>)
    requires Wellformed(r) && servoId < 3 && servoId < |measured| && r.numServos <= |measured|
    requires ValidAngle(r.kind, servoId, Deg(angle as real), measured)
    ensures var r1 := MoveToAngleAt(r, servoId, angle, speed, true, measured);
            && r1.sent[|r.sent|] == MoveTo(servoId + 1, angle, speed)
            && MoveToAngle(r1, servoId, angle, measured).sent[|r1.sent|] == MoveTo(servoId + 1, angle, r.speedRPM)
  {
  }

  /**
   moveHome of morobot-p: servo 0 to 0, servo 1 to 75, servo 2 to -25, each
   through the checked single-joint move against its own snapshot
   `readings[i]`, then the wait.
   */
  function MoveHomeP(r: Robot, readings: seq<seq<int>>): (r': Robot)
    requires Wellformed(r) && r.kind == PArm && Snapshots(r.kind, readings, 3)
    ensures Wellformed(r') && !r'.tcpPoseIsValid && IsBusy(r') == r.waitAfterEachMove
    ensures r'.sent == r.sent + [MoveTo(1, 0, r.speedRPM)]
                       + (if MorobotP.Coupled(75.0, readings[1][2] as real) then [MoveTo(2, 75, r.speedRPM)] else [])
                       + (if MorobotP.Coupled(readings[2][1] as real, -25.0) then [MoveTo(3, -25, r.speedRPM)] else [])
  {
    var r1 := MoveToAngle(r, 0, 0, readings[0]);
    var r2 := MoveToAngle(r1, 1, 75, readings[1]);
    var r3 := MoveToAngle(r2, 2, -25, readings[2]);
    assert Trunc(75.0) == 75 && Trunc(-25.0) == -25;
    BusyIsNotIdle(r3);
    Settle(r3)
  }

  /**
   The home pair itself obeys the coupling rule: 90 - 75 + 25 = 40; from the
   home pose, with servo 1 reporting 75 when servo 2 is checked, all three
   servos are moved.
   */
  lemma HomeIsCoupled(r: Robot, readings: seq<seq<int>>)
    requires Wellformed(r) && r.kind == PArm && Snapshots(r.kind, readings, 3)
    requires readings[1][2] == -25 && readings[2][1] == 75
    ensures MorobotP.Coupled(75.0, -25.0)
    ensures |MoveHomeP(r, readings).sent| == |r.sent| + 3
  {
  }

  /** setZero: every servo's present position becomes its zero; the pose is no longer valid. */
  function SetZero(r: Robot): (r': Robot)
    requires Wellformed(r)
    ensures |r'.sent| == |r.sent| + r.numServos && r'.sent[..|r.sent|] == r.sent
    ensures forall j :: |r.sent| <= j < |r'.sent| ==> r'.sent[j] == Command.SetZero(j - |r.sent| + 1)
    ensures r' == r.(sent := r'.sent, tcpPoseIsValid := false)
  {
    r.(sent := r.sent + seq(r.numServos, i requires 0 <= i < r.numServos => Command.SetZero(i + 1)), tcpPoseIsValid := false)
  }

  /** setBreaks: brakes every servo; the pose stays as it is. */
  function SetBreaks(r: Robot): (r': Robot)
    requires Wellformed(r)
    ensures |r'.sent| == |r.sent| + r.numServos && r'.sent[..|r.sent|] == r.sent
    ensures forall j :: |r.sent| <= j < |r'.sent| ==> r'.sent[j] == SetBrake(j - |r.sent| + 1, false)
    ensures r' == r.(sent := r'.sent)
  {
    r.(sent := r.sent + seq(r.numServos, i requires 0 <= i < r.numServos => SetBrake(i + 1, false)))
  }

  /** releaseBreaks: the axes may be moved by hand, so the pose is no longer valid. */
  function ReleaseBreaks(r: Robot): (r': Robot)
    requires Wellformed(r)
    ensures |r'.sent| == |r.sent| + r.numServos && r'.sent[..|r.sent|] == r.sent
    ensures forall j :: |r.sent| <= j < |r'.sent| ==> r'.sent[j] == SetBrake(j - |r.sent| + 1, true)
    ensures r' == r.(sent := r'.sent, tcpPoseIsValid := false)
  {
    r.(sent := r.sent + seq(r.numServos, i requires 0 <= i < r.numServos => SetBrake(i + 1, true)), tcpPoseIsValid := false)
  }

  /** getJointLimit(servoId, limitNum): limitNum false is the lower, true the upper limit. */
  function GetJointLimit(r: Robot, servoId: nat, upper: bool): (l: int)
    requires Wellformed(r) && servoId < 3
    ensures !upper ==> l == r.jointLimits[servoId].lo
    ensures upper ==> l == r.jointLimits[servoId].hi
  {
    if upper then r.jointLimits[servoId].hi else r.jointLimits[servoId].lo
  }

  /** The morobot-2d constructor leaves its own limit table readable through the base class, row by row. */
  lemma TwoDLimitsCopied(servoId: nat, upper: bool)
    requires servoId < 3
    ensures GetJointLimit(Morobot2d.New(), servoId, upper)
            == if upper then Morobot2d.JOINT_LIMITS[servoId].hi else Morobot2d.JOINT_LIMITS[servoId].lo
    ensures GetJointLimit(Morobot2d.New(), 0, false) == -110 && GetJointLimit(Morobot2d.New(), 0, true) == 135
    ensures GetJointLimit(Morobot2d.New(), 1, false) == -72 && GetJointLimit(Morobot2d.New(), 1, true) == 24
  {
  }

  /** getNumSmartServos: 3 for morobot-p, 2 for morobot-2d, never more than NUM_MAX_SERVOS. */
  function GetNumSmartServos(r: Robot): (n: nat)
    requires Wellformed(r)
    ensures n <= NUM_MAX_SERVOS && n == r.numServos
    ensures r.kind == PArm ==> n == 3
    ensures r.kind == TwoDArm ==> n == 2
  {
    r.numServos
  }
}
