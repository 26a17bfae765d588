/**
 The morobot-p arm (morobot_p.cpp): its joint-validity rules, including the
 coupling between servo 1 and servo 2, the gating of the inverse-kinematics
 result before it is stored, the TCP offset, and the lazily recomputed pose.
 */
module MorobotP {
  import opened Angles
  import opened Robot

  /** `_jointLimits` of morobot-p: servo 0, servo 1, servo 2. */
  const JOINT_LIMITS: seq<Limit> := [Limit(-360, 360), Limit(0, 115), Limit(-100, 28)]
  /** Initial length of the last link, in mm. */
  const A3: real := 26.27
  /** Distance between the base frame and the rotation axis of servo 0 (x), in mm. */
  const X_DEF_OFFSET: real := 10.0
  /** Distance between the rotation axis and the TCP on the flange (z), in mm. */
  const Z_DEF_OFFSET: real := 15.0
  /** Bounds of 90 - s1 - s2 that protect the mechanics of the coupled links. */
  const MIN_ANGLE_DIFF: int := 20
  const MAX_ANGLE_DIFF: int := 135

  /** The morobot-p constructor: three servos, its limit table copied into the base table. */
  function New(): (r: Robot)
    ensures Wellformed(r) && r.kind == PArm && r.numServos == 3
    ensures r.jointLimits == JOINT_LIMITS && r.geometry.a3 == A3
    ensures !r.tcpPoseIsValid && r.sent == []
  {
    NewRobot(PArm, JOINT_LIMITS, Geometry(A3, Vec3(0.0, 0.0, 0.0)))
  }

  /** The mechanical rule for the two coupled links: 20 <= 90 - s1 - s2 <= 135. */
  predicate Coupled(s1: real, s2: real)
  {
    MIN_ANGLE_DIFF as real <= 90.0 - s1 - s2 <= MAX_ANGLE_DIFF as real
  }

  /** The angle lies within the inclusive limits of the given table row. */
  predicate WithinLimits(l: Limit, a: real)
  {
    l.lo as real <= a <= l.hi as real
  }

  /**
   The validity rule of morobot-p for one servo: not NaN, within the
   inclusive limits, and, for servo 1 or 2, the truncated candidate together
   with the measured angle of the other coupled servo obeys the coupling rule.
   */
  ghost predicate ValidAngle(servoId: nat, a: Angle, measured: seq<int>)
    requires servoId < 3 && 3 <= |measured|
  {
    && a.Deg?
    && WithinLimits(JOINT_LIMITS[servoId], a.v)
    && (servoId == 1 ==> Coupled(Trunc(a.v) as real, measured[2] as real))
    && (servoId == 2 ==> Coupled(measured[1] as real, Trunc(a.v) as real))
  }

  /** checkIfAngleDiffValid: accepts iff the coupling rule holds; a rejection clears the pose flag. */
  function CheckIfAngleDiffValid(r: Robot, s1: real, s2: real): (c: Checked)
    ensures c.ok <==> Coupled(s1, s2)
    ensures c.robot == r.(tcpPoseIsValid := r.tcpPoseIsValid && c.ok)
  {
    if 90.0 - s1 - s2 < MIN_ANGLE_DIFF as real then Checked(false, r.(tcpPoseIsValid := false))
    else if 90.0 - s1 - s2 > MAX_ANGLE_DIFF as real then Checked(false, r.(tcpPoseIsValid := false))
    else Checked(true, r)
  }

  /**
   checkIfAngleValid of morobot-p. `measured` are the servo angles the bus
   reports (getActAngle). A NaN, an angle out of the limits and a failed
   coupling check each clear the pose flag; nothing else changes.
   */
  function CheckIfAngleValid(r: Robot, servoId: nat, a: Angle, measured: seq<int>): (c: Checked)
    requires servoId < 3 && 3 <= |measured|
    ensures c.ok <==> ValidAngle(servoId, a, measured)
    ensures c.robot == r.(tcpPoseIsValid := r.tcpPoseIsValid && c.ok)
  {
    if a.NaN? then Checked(false, r.(tcpPoseIsValid := false))
    else if a.v < JOINT_LIMITS[servoId].lo as real || a.v > JOINT_LIMITS[servoId].hi as real then
      Checked(false, r.(tcpPoseIsValid := false))
    else if servoId == 1 then CheckIfAngleDiffValid(r, Trunc(a.v) as real, measured[2] as real)
    else if servoId == 2 then CheckIfAngleDiffValid(r, measured[1] as real, Trunc(a.v) as real)
    else Checked(true, r)
  }

  /** For servo 0 only NaN and the limits [-360, 360] matter. */
  lemma Servo0OnlyLimits(r: Robot, v: real, measured: seq<int>)
    requires 3 <= |measured|
    ensures CheckIfAngleValid(r, 0, Deg(v), measured).ok <==> -360.0 <= v <= 360.0
    ensures !CheckIfAngleValid(r, 0, NaN, measured).ok
  {
  }

  /** The coupling check uses the integer part of the candidate: 0.9 degrees more or less can be invisible to it. */
  lemma CouplingSeesTruncatedAngle(r: Robot, measured: seq<int>)
    requires 3 <= |measured| && measured[2] == -5
    ensures CheckIfAngleValid(r, 1, Deg(75.9), measured).ok == CheckIfAngleValid(r, 1, Deg(75.0), measured).ok
    ensures !Coupled(75.9, -5.0) && Coupled(75.0, -5.0)
  {
    assert Trunc(75.9) == 75;
  }

  /** The target after removing the default offsets and the stored TCP offset; x needs none because a3 holds it. */
  function SolverInput(g: Geometry, target: Vec3): Vec3
  {
    Vec3(target.x - X_DEF_OFFSET, target.y - g.tcpOffset.y, target.z - g.tcpOffset.z + Z_DEF_OFFSET)
  }

  /**
   calculateAngles: solves the inverse kinematics, then checks servo 0, 1 and
   2 in that order and writes the goal angles only when all three pass.
   */
  function CalculateAngles(r: Robot, target: Vec3, ik: (Geometry, Vec3) -> Joints, measured: seq<int>): (c: Checked)
    requires Wellformed(r) && 3 <= |measured|
    ensures Wellformed(c.robot)
    ensures var s := ik(r.geometry, SolverInput(r.geometry, target));
            c.ok <==> ValidAngle(0, s.t0, measured) && ValidAngle(1, s.t1, measured) && ValidAngle(2, s.t2, measured)
    ensures var s := ik(r.geometry, SolverInput(r.geometry, target));
            c.ok ==> c.robot == r.(goalAngles := r.goalAngles[0 := s.t0][1 := s.t1][2 := s.t2])
    ensures !c.ok ==> c.robot == r.(tcpPoseIsValid := false)
  {
    var s := ik(r.geometry, SolverInput(r.geometry, target));
    var c0 := CheckIfAngleValid(r, 0, s.t0, measured);
    if !c0.ok then c0
    else
      var c1 := CheckIfAngleValid(c0.robot, 1, s.t1, measured);
      if !c1.ok then c1
      else
        var c2 := CheckIfAngleValid(c1.robot, 2, s.t2, measured);
        if !c2.ok then c2
        else Checked(true, c2.robot.(goalAngles := r.goalAngles[0 := s.t0][1 := s.t1][2 := s.t2]))
  }

  /**
   The coupling check of calculateAngles pairs each candidate with the
   measured angle of the other servo, not with the other candidate: from the
   measured pose (0, 0) the goal pair (60, 28) is stored although
   90 - 60 - 28 = 2 breaks the coupling rule.
   */
  lemma StoredGoalsNeedNotBeCoupled(r: Robot, target: Vec3)
    requires Wellformed(r)
    ensures var ik := (g: Geometry, p: Vec3) => Joints(Deg(0.0), Deg(60.0), Deg(28.0));
            var c := CalculateAngles(r, target, ik, [0, 0, 0]);
            c.ok && c.robot.goalAngles[1] == Deg(60.0) && c.robot.goalAngles[2] == Deg(28.0)
    ensures !Coupled(60.0, 28.0)
  {
    var ik := (g: Geometry, p: Vec3) => Joints(Deg(0.0), Deg(60.0), Deg(28.0));
    assert Trunc(60.0) == 60 && Trunc(28.0) == 28;
    assert ValidAngle(1, Deg(60.0), [0, 0, 0]);
    assert ValidAngle(2, Deg(28.0), [0, 0, 0]);
  }

  /**
   setTCPoffset: the x offset lengthens the last link a3 instead of being
   stored as an offset; y offsets are not supported and stored as 0; the
   cached pose becomes invalid.
   */
  function SetTCPoffset(r: Robot, xOffset: real, yOffset: real, zOffset: real): (r': Robot)
    ensures r'.geometry.a3 == r.geometry.a3 + xOffset
    ensures r'.geometry.tcpOffset == Vec3(xOffset, 0.0, zOffset)
    ensures !r'.tcpPoseIsValid
    ensures r' == r.(geometry := r'.geometry, tcpPoseIsValid := false)
  {
    r.(geometry := Geometry(r.geometry.a3 + xOffset, Vec3(xOffset, 0.0, zOffset)), tcpPoseIsValid := false)
  }

  /** setTCPoffset is not idempotent: every call lengthens a3 again. */
  lemma SetTCPoffsetAccumulates(r: Robot, x: real, y: real, z: real)
    ensures SetTCPoffset(SetTCPoffset(r, x, y, z), x, y, z).geometry.a3 == r.geometry.a3 + 2.0 * x
    ensures x != 0.0 ==> SetTCPoffset(SetTCPoffset(r, x, y, z), x, y, z) != SetTCPoffset(r, x, y, z)
  {
  }

  /**
   updateTCPpose: nothing happens while the cached pose is valid. Otherwise
   it waits for the robot, recomputes the position from the measured angles
   with the stored offsets added back, sets the x/y orientation to 0 and the
   z orientation to the angle of servo 0, and marks the pose valid.
   */
  function UpdateTCPpose(r: Robot, fk: (Geometry, seq<int>) -> Vec3, measured: seq<int>): (r': Robot)
    requires Wellformed(r) && 3 <= |measured|
    ensures Wellformed(r') && r'.tcpPoseIsValid
    ensures r.tcpPoseIsValid ==> r' == r
    ensures !r.tcpPoseIsValid ==>
              var raw := fk(r.geometry, measured[..3]);
              && r'.actPos == Vec3(raw.x + X_DEF_OFFSET, raw.y + r.geometry.tcpOffset.y, raw.z + r.geometry.tcpOffset.z - Z_DEF_OFFSET)
              && r'.actOri == Vec3(0.0, 0.0, measured[0] as real)
              && r' == Settle(r).(actPos := r'.actPos, actOri := r'.actOri, tcpPoseIsValid := true)
  {
    if r.tcpPoseIsValid then r
    else
      var raw := fk(r.geometry, measured[..3]);
      Settle(r).(actPos := Vec3(raw.x + X_DEF_OFFSET, raw.y + r.geometry.tcpOffset.y, raw.z + r.geometry.tcpOffset.z - Z_DEF_OFFSET),
                 actOri := Vec3(0.0, 0.0, measured[0] as real),
                 tcpPoseIsValid := true)
  }

  /** A second updateTCPpose finds the cache valid and does nothing. */
  lemma UpdateTCPposeIdempotent(r: Robot, fk: (Geometry, seq<int>) -> Vec3, measured: seq<int>)
    requires Wellformed(r) && 3 <= |measured|
    ensures UpdateTCPpose(UpdateTCPpose(r, fk, measured), fk, measured) == UpdateTCPpose(r, fk, measured)
  {
  }

  function GetType(): (t: string)
    ensures t == "morobot_p"
  {
    "morobot_p"
  }
}
