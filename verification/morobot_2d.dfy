/**
 The morobot-2d arm (morobot_2d.h): two servos, its joint-limit table and the
 copy of that table into the base class, its validity rule, its type name, and
 the gating and pose cache around its kinematics (morobot_2d.cpp).
 */
module Morobot2d {
  import opened Angles
  import opened Robot

  /** `_jointLimits` of morobot-2d; the third row belongs to no servo. */
  const JOINT_LIMITS: seq<Limit> := [Limit(-110, 135), Limit(-72, 24), Limit(0, 0)]
  const NUM_SERVOS: nat := 2
  const X_DEF_OFFSET: real := 40.96
  const Y_DEF_OFFSET: real := 74.24
  const Z_DEF_OFFSET_BOTTOM: real := 22.0
  const Z_DEF_OFFSET_TOP: real := 16.9

  /** The constructor: `morobotClass(2)`, then the limit table copied verbatim into `_robotJointLimits`. */
  function New(): (r: Robot)
    ensures Wellformed(r) && r.kind == TwoDArm
    ensures r.numServos == NUM_SERVOS
    ensures |r.jointLimits| == |JOINT_LIMITS| && forall i :: 0 <= i < 3 ==> r.jointLimits[i] == JOINT_LIMITS[i]
    ensures !r.tcpPoseIsValid && r.sent == []
  {
    NewRobot(TwoDArm, JOINT_LIMITS, Geometry(0.0, Vec3(0.0, 0.0, 0.0)))
  }

  /** Servo 0 may turn within [-110, 135], servo 1 within [-72, 24]; the unused row is {0, 0}. */
  lemma LimitTable()
    ensures JOINT_LIMITS[0] == Limit(-110, 135) && JOINT_LIMITS[1] == Limit(-72, 24)
    ensures JOINT_LIMITS[2] == Limit(0, 0)
    ensures forall i :: 0 <= i < 3 ==> JOINT_LIMITS[i].lo <= JOINT_LIMITS[i].hi
  {
  }

  /** The validity rule of morobot-2d: not NaN and within the inclusive limits of the servo. */
  ghost predicate ValidAngle(servoId: nat, a: Angle)
    requires servoId < 3
  {
    a.Deg? && JOINT_LIMITS[servoId].lo as real <= a.v <= JOINT_LIMITS[servoId].hi as real
  }

  /** checkIfAngleValid: a NaN or an angle outside the limits is rejected, and a rejection clears the pose flag. */
  function CheckIfAngleValid(r: Robot, servoId: nat, a: Angle): (c: Checked)
    requires servoId < 3
    ensures c.ok <==> ValidAngle(servoId, a)
    ensures c.robot == r.(tcpPoseIsValid := r.tcpPoseIsValid && c.ok)
  {
    if a.NaN? then Checked(false, r.(tcpPoseIsValid := false))
    else if a.v < JOINT_LIMITS[servoId].lo as real || a.v > JOINT_LIMITS[servoId].hi as real then
      Checked(false, r.(tcpPoseIsValid := false))
    else Checked(true, r)
  }

  /** Both ends of every limit are accepted, and one degree beyond either end is not. */
  lemma LimitsInclusive(r: Robot, servoId: nat)
    requires servoId < 3
    ensures CheckIfAngleValid(r, servoId, Deg(JOINT_LIMITS[servoId].lo as real)).ok
    ensures CheckIfAngleValid(r, servoId, Deg(JOINT_LIMITS[servoId].hi as real)).ok
    ensures !CheckIfAngleValid(r, servoId, Deg(JOINT_LIMITS[servoId].lo as real - 1.0)).ok
    ensures !CheckIfAngleValid(r, servoId, Deg(JOINT_LIMITS[servoId].hi as real + 1.0)).ok
  {
  }

  /** setTCPoffset of morobot-2d stores all three offsets and invalidates the pose. */
  function SetTCPoffset(r: Robot, xOffset: real, yOffset: real, zOffset: real): (r': Robot)
    ensures r'.geometry.tcpOffset == Vec3(xOffset, yOffset, zOffset) && r'.geometry.a3 == r.geometry.a3
    ensures !r'.tcpPoseIsValid
    ensures r' == r.(geometry := r'.geometry, tcpPoseIsValid := false)
  {
    r.(geometry := r.geometry.(tcpOffset := Vec3(xOffset, yOffset, zOffset)), tcpPoseIsValid := false)
  }

  function SolverInput(g: Geometry, target: Vec3): Vec3
  {
    Vec3(target.x - g.tcpOffset.x - X_DEF_OFFSET,
         target.y - g.tcpOffset.y - Y_DEF_OFFSET,
         target.z - g.tcpOffset.z - Z_DEF_OFFSET_BOTTOM - Z_DEF_OFFSET_TOP)
  }

  /** calculateAngles: checks servo 0 then servo 1 and stores both goal angles only if both pass. */
  function CalculateAngles(r: Robot, target: Vec3, ik: (Geometry, Vec3) -> Joints): (c: Checked)
    requires Wellformed(r)
    ensures Wellformed(c.robot)
    ensures var s := ik(r.geometry, SolverInput(r.geometry, target));
            c.ok <==> ValidAngle(0, s.t0) && ValidAngle(1, s.t1)
    ensures var s := ik(r.geometry, SolverInput(r.geometry, target));
            c.ok ==> c.robot == r.(goalAngles := r.goalAngles[0 := s.t0][1 := s.t1])
    ensures !c.ok ==> c.robot == r.(tcpPoseIsValid := false)
  {
    var s := ik(r.geometry, SolverInput(r.geometry, target));
    var c0 := CheckIfAngleValid(r, 0, s.t0);
    if !c0.ok then c0
    else
      var c1 := CheckIfAngleValid(c0.robot, 1, s.t1);
      if !c1.ok then c1
      else Checked(true, c1.robot.(goalAngles := r.goalAngles[0 := s.t0][1 := s.t1]))
  }

  /** updateTCPpose of morobot-2d: lazy like morobot-p's; y is fixed by the offsets and the orientation is 0. */
  function UpdateTCPpose(r: Robot, fk: (Geometry, seq<int>) -> Vec3, measured: seq<int>): (r': Robot)
    requires Wellformed(r) && 2 <= |measured|
    ensures Wellformed(r') && r'.tcpPoseIsValid
    ensures r.tcpPoseIsValid ==> r' == r
    ensures !r.tcpPoseIsValid ==>
              var raw := fk(r.geometry, measured[..2]);
              && r'.actPos.x == raw.x + r.geometry.tcpOffset.x + X_DEF_OFFSET
              && r'.actPos.y == r.geometry.tcpOffset.y + Y_DEF_OFFSET
              && r'.actPos.z == raw.z + r.geometry.tcpOffset.z + Z_DEF_OFFSET_BOTTOM + Z_DEF_OFFSET_TOP
              && r'.actOri == Vec3(0.0, 0.0, 0.0)
              && r' == Settle(r).(actPos := r'.actPos, actOri := r'.actOri, tcpPoseIsValid := true)
  {
    if r.tcpPoseIsValid then r
    else
      var raw := fk(r.geometry, measured[..2]);
      var g := r.geometry.tcpOffset;
      Settle(r).(actPos := Vec3(raw.x + g.x + X_DEF_OFFSET, g.y + Y_DEF_OFFSET,
                                raw.z + g.z + Z_DEF_OFFSET_BOTTOM + Z_DEF_OFFSET_TOP),
                 actOri := Vec3(0.0, 0.0, 0.0),
                 tcpPoseIsValid := true)
  }

  /** getType: always the constant name of the geometry. */
  function GetType(): (t: string)
    ensures t == "morobot_2d"
  {
    "morobot_2d"
  }
}
