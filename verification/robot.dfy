/**
 The state a `morobotClass` object owns (morobot.h), the servo bus seen as a
 log of the commands sent to it, and the busy/idle readiness machinery:
 setBusy, setIdle, checkIfMotorMoves, isReady and waitUntilIsReady.
 */
module Robot {
  import opened Angles

  /** Maximum number of smart servos in one robot object. */
  const NUM_MAX_SERVOS: nat := 10
  /** Milliseconds after which waitUntilIsReady stops waiting. */
  const TIMEOUT_DELAY: nat := 15000
  /** Milliseconds checkIfMotorMoves waits between its two angle samples. */
  const MOTION_SAMPLE_DELAY: nat := 150
  /** Highest speed the smart servos accept, in RPM. */
  const SERVO_MAX_SPEED_RPM: nat := 50

  /** The robot geometries of this model. */
  datatype Kind = PArm | TwoDArm

  /** One row of a joint-limit table: lower and upper limit in degrees. */
  datatype Limit = Limit(lo: int, hi: int)

  datatype Vec3 = Vec3(x: real, y: real, z: real)

  function Add(a: Vec3, b: Vec3): (r: Vec3)
    ensures r.x - a.x == b.x && r.y - a.y == b.y && r.z - a.z == b.z
  {
    Vec3(a.x + b.x, a.y + b.y, a.z + b.z)
  }

  /** The run-time adjustable part of the geometry: the last link length (morobot-p) and the TCP offset. */
  datatype Geometry = Geometry(a3: real, tcpOffset: Vec3)

  /** Candidate angles of the inverse kinematics for servos 0, 1 and 2. */
  datatype Joints = Joints(t0: Angle, t1: Angle, t2: Angle)

  /**
   The closed-form trigonometric solvers, left uninterpreted: `ik` maps the
   offset-corrected target to candidate angles, `fk` maps the measured servo
   angles to the raw TCP position before the offsets are added back.
   */
  datatype Kinematics = Kinematics(ik: (Geometry, Vec3) -> Joints, fk: (Geometry, seq<int>) -> Vec3)

  /** A command on the smart-servo bus; bus ids are 1-based. */
  datatype Command =
    | MoveTo(busId: int, angle: int, speed: int)
    | MoveBy(busId: int, delta: int, speed: int)
    | SetZero(busId: int)
    | SetBrake(busId: int, loose: bool)

  datatype Robot = Robot(
    kind: Kind,
    numServos: nat,              // _numSmartServos
    jointLimits: seq<Limit>,     // _robotJointLimits[3][2]
    speedRPM: int,               // _speedRPM, the default speed
    tcpPoseIsValid: bool,        // _tcpPoseIsValid
    angleReached: seq<bool>,     // _angleReached[NUM_MAX_SERVOS]
    goalAngles: seq<Angle>,      // _goalAngles[NUM_MAX_SERVOS]
    actPos: Vec3,                // _actPos
    actOri: Vec3,                // _actOri
    geometry: Geometry,
    waitAfterEachMove: bool,
    sent: seq<Command>           // every command sent to the servo bus, oldest first
  )

  /** The answer of a check or a move together with the robot state it leaves behind. */
  datatype Checked = Checked(ok: bool, robot: Robot)

  /** Number of servos each geometry's constructor declares. */
  function ServosOf(k: Kind): nat
  {
    match k
    case PArm => 3
    case TwoDArm => 2
  }

  /** The shape every constructed robot has. */
  ghost predicate Wellformed(r: Robot)
  {
    && r.numServos == ServosOf(r.kind)
    && |r.jointLimits| == 3
    && |r.angleReached| == NUM_MAX_SERVOS
    && |r.goalAngles| == NUM_MAX_SERVOS
  }

  /** The robot object as `morobotClass(numSmartServos)` leaves it: a global, so every uninitialised member is zero. */
  function NewRobot(kind: Kind, limits: seq<Limit>, geometry: Geometry): (r: Robot)
    requires |limits| == 3
    ensures Wellformed(r)
    ensures r.kind == kind && r.jointLimits == limits && r.geometry == geometry
    ensures !r.tcpPoseIsValid && r.sent == [] && r.waitAfterEachMove
    ensures forall i :: 0 <= i < NUM_MAX_SERVOS ==> !r.angleReached[i]
  {
    Robot(kind, ServosOf(kind), limits, 0, false,
          seq(NUM_MAX_SERVOS, _ => false), seq(NUM_MAX_SERVOS, _ => Deg(0.0)),
          Vec3(0.0, 0.0, 0.0), Vec3(0.0, 0.0, 0.0), geometry, true, [])
  }

  /** Every servo of the robot is marked as having reached its goal. */
  ghost predicate IsIdle(r: Robot)
    requires Wellformed(r)
  {
    forall i :: 0 <= i < r.numServos ==> r.angleReached[i]
  }

  /** Every servo of the robot is marked as still moving. */
  ghost predicate IsBusy(r: Robot)
    requires Wellformed(r)
  {
    forall i :: 0 <= i < r.numServos ==> !r.angleReached[i]
  }

  /** setBusy: marks the robot's servos as moving; the unused slots and everything else stay. */
  function SetBusy(r: Robot): (r': Robot)
    requires Wellformed(r)
    ensures Wellformed(r') && IsBusy(r')
    ensures forall i :: r.numServos <= i < NUM_MAX_SERVOS ==> r'.angleReached[i] == r.angleReached[i]
    ensures r' == r.(angleReached := r'.angleReached)
  {
    r.(angleReached := seq(NUM_MAX_SERVOS, i requires 0 <= i < NUM_MAX_SERVOS =>
                             if i < r.numServos then false else r.angleReached[i]))
  }

  /** setIdle: marks the robot's servos as having reached their goal. */
  function SetIdle(r: Robot): (r': Robot)
    requires Wellformed(r)
    ensures Wellformed(r') && IsIdle(r')
    ensures forall i :: r.numServos <= i < NUM_MAX_SERVOS ==> r'.angleReached[i] == r.angleReached[i]
    ensures r' == r.(angleReached := r'.angleReached)
  {
    r.(angleReached := seq(NUM_MAX_SERVOS, i requires 0 <= i < NUM_MAX_SERVOS =>
                             if i < r.numServos then true else r.angleReached[i]))
  }

  /** Busy and idle exclude each other on a robot with at least one servo. */
  lemma BusyIsNotIdle(r: Robot)
    requires Wellformed(r)
    ensures IsBusy(SetBusy(r)) && !IsIdle(SetBusy(r))
    ensures IsIdle(SetIdle(r)) && !IsBusy(SetIdle(r))
  {
    assert SetBusy(r).angleReached[0] == false;
    assert SetIdle(r).angleReached[0] == true;
  }

  /** checkIfMotorMoves: a servo moves when two angle samples taken MOTION_SAMPLE_DELAY apart differ. */
  function CheckIfMotorMoves(sample: (int, int)): (moves: bool)
    ensures moves <==> sample.0 != sample.1
  {
    sample.0 != sample.1
  }

  /**
   isReady: walks the servos in order; one not yet marked reached is sampled,
   and the first one found moving makes the robot not ready.
   */
  method IsReady(reached: seq<bool>, samples: seq<(int, int)>, n: nat) returns (ready: bool)
    requires n <= |reached| && n <= |samples|
    ensures ready <==> forall i :: 0 <= i < n ==> reached[i] || !CheckIfMotorMoves(samples[i])
  {
    var i := 0;
    while i < n
      invariant 0 <= i <= n
      invariant forall j :: 0 <= j < i ==> reached[j] || !CheckIfMotorMoves(samples[j])
    {
      if !reached[i] && CheckIfMotorMoves(samples[i]) {
        return false;
      }
      i := i + 1;
    }
    return true;
  }

  /** One round of waitUntilIsReady: the angle samples isReady took, and the milliseconds elapsed since the wait began. */
  datatype Poll = Poll(samples: seq<(int, int)>, elapsed: int)

  datatype WaitOutcome = Ready | TimedOut | NotWaited

  /** No servo of the first n moved between its two samples. */
  ghost predicate AllStill(samples: seq<(int, int)>, n: nat)
    requires n <= |samples|
  {
    forall i :: 0 <= i < n ==> !CheckIfMotorMoves(samples[i])
  }

  /** A poll after which the wait stops: all servos still, or the timeout passed. */
  ghost predicate Ends(p: Poll, n: nat)
    requires n <= |p.samples|
  {
    AllStill(p.samples, n) || p.elapsed > TIMEOUT_DELAY
  }

  /**
   The robot flags as waitUntilIsReady leaves them. When the robot is set not
   to wait it is set idle; otherwise the wait starts with setBusy and nothing in
   the wait marks a servo as reached again, so the flags stay busy.
   */
  function Settle(r: Robot): (r': Robot)
    requires Wellformed(r)
    ensures Wellformed(r') && r' == r.(angleReached := r'.angleReached)
    ensures r.waitAfterEachMove ==> IsBusy(r')
    ensures !r.waitAfterEachMove ==> IsIdle(r')
  {
    if r.waitAfterEachMove then SetBusy(r) else SetIdle(r)
  }

  /**
   waitUntilIsReady: polls isReady until no servo moves, or until more than
   TIMEOUT_DELAY ms have passed. `polls` are the successive rounds; the clock
   guarantees one of them ends the wait.
   */
  method WaitUntilIsReady(r: Robot, polls: seq<Poll>) returns (outcome: WaitOutcome, rounds: nat, r': Robot)
    requires Wellformed(r)
    requires forall j :: 0 <= j < |polls| ==> r.numServos <= |polls[j].samples|
    requires r.waitAfterEachMove ==> exists j :: 0 <= j < |polls| && Ends(polls[j], r.numServos)
    ensures r' == Settle(r)
    ensures !r.waitAfterEachMove <==> outcome == NotWaited
    ensures outcome != NotWaited ==>
              && 0 < rounds <= |polls|
              && Ends(polls[rounds - 1], r.numServos)
              && (forall j :: 0 <= j < rounds - 1 ==> !Ends(polls[j], r.numServos))
              && (outcome == Ready <==> AllStill(polls[rounds - 1].samples, r.numServos))
              && (outcome == TimedOut ==> polls[rounds - 1].elapsed > TIMEOUT_DELAY)
  {
    if !r.waitAfterEachMove {
      return NotWaited, 0, SetIdle(r);
    }
    r' := SetBusy(r);
    rounds := 0;
    ghost var j0 :| 0 <= j0 < |polls| && Ends(polls[j0], r.numServos);
    while true
      invariant 0 <= rounds <= j0
      invariant forall j :: 0 <= j < rounds ==> !Ends(polls[j], r.numServos)
      decreases j0 - rounds
    {
      var ready := IsReady(r'.angleReached, polls[rounds].samples, r.numServos);
      if ready {
        return Ready, rounds + 1, r';
      }
      if polls[rounds].elapsed > TIMEOUT_DELAY {
        return TimedOut, rounds + 1, r';
      }
      rounds := rounds + 1;
    }
  }
}
