/**
 The end-effectors (eef.h): the binary end-effector, an on/off latch on one
 pin, and the gripper, driven either by a smart servo on the robot's bus
 (type 0) or by a plain hobby servo on a pin (type 1). Angle readings of the
 smart servo and the clock are inputs of the operations that use them.
 */
module Eef {
  import opened Angles
  import opened Robot
  import Motion

  /** Milliseconds after which the gripper stops waiting or force-closing. */
  const TIMEOUT_DELAY_GRIPPER: int := 25000
  /** Default parameters of setParams. */
  const DEFAULT_GEAR_RATIO: real := 7.87
  const DEFAULT_CLOSING_WIDTH_OFFSET: real := 101.2
  /** Speed (RPM) and step (motor degrees) of closeToForce. */
  const FORCE_SPEED: int := 20
  const FORCE_STEP: int := 5
  /** The default current limit of closeToForce, the one autoCalibrate closes with. */
  const DEFAULT_MAX_CURRENT: real := 70.0

  /* ---------------- binaryEEF ---------------- */

  /** A binary end-effector: the pin it drives and whether it is switched on; `levels` logs every pin write. */
  datatype BinaryEef = BinaryEef(pin: int, isActive: bool, levels: seq<bool>)

  /** The constructor: configures the pin and starts switched off. */
  function NewBinaryEef(pin: int): (e: BinaryEef)
    ensures !IsActivated(e) && IsDeactivated(e) && e.pin == pin && e.levels == []
  {
    BinaryEef(pin, false, [])
  }

  /** activate: drives the pin high; the end-effector is then on. */
  function Activate(e: BinaryEef): (e': BinaryEef)
    ensures IsActivated(e') && !IsDeactivated(e')
    ensures e'.pin == e.pin && e'.levels == e.levels + [true]
  {
    e.(isActive := true, levels := e.levels + [true])
  }

  /** deactivate: drives the pin low; the end-effector is then off. */
  function Deactivate(e: BinaryEef): (e': BinaryEef)
    ensures !IsActivated(e') && IsDeactivated(e')
    ensures e'.pin == e.pin && e'.levels == e.levels + [false]
  {
    e.(isActive := false, levels := e.levels + [false])
  }

  /** isActivated: true iff the end-effector is latched on. */
  function IsActivated(e: BinaryEef): (on: bool)
    ensures on <==> e.isActive
  {
    e.isActive
  }

  /** isDeactivated: always the negation of isActivated. */
  function IsDeactivated(e: BinaryEef): (off: bool)
    ensures off <==> !IsActivated(e)
  {
    !e.isActive
  }

  /** One call on a binary end-effector. */
  datatype LatchOp = On | Off

  function Apply(e: BinaryEef, ops: seq<LatchOp>): BinaryEef
    decreases |ops|
  {
    if ops == [] then e
    else Apply(if ops[0] == On then Activate(e) else Deactivate(e), ops[1..])
  }

  /**
   The latch: after any sequence of calls on a fresh end-effector it is on
   iff the last call was activate, isDeactivated is always the negation of
   isActivated, and the pin has seen exactly one write per call.
   */
  lemma {:induction false} LatchFollowsLastCall(e: BinaryEef, ops: seq<LatchOp>)
    ensures var e' := Apply(e, ops);
            && IsActivated(e') == (if ops == [] then IsActivated(e) else ops[|ops| - 1] == On)
            && IsDeactivated(e') == !IsActivated(e')
            && |e'.levels| == |e.levels| + |ops|
            && e'.pin == e.pin
    decreases |ops|
  {
    if ops != [] {
      var e1 := if ops[0] == On then Activate(e) else Deactivate(e);
      LatchFollowsLastCall(e1, ops[1..]);
      if |ops| > 1 {
        assert ops[1..][|ops[1..]| - 1] == ops[|ops| - 1];
      }
    }
  }

  /* ---------------- gripper state ---------------- */

  /** `_gripperType`: 0 is a smart-servo parallel gripper, 1 a plain servo. */
  datatype GripperType = SmartServo | PlainServo

  datatype Gripper = Gripper(
    isClosed: bool,
    isOpened: bool,
    currentAngle: real,          // last known opening angle (real degrees for a plain servo)
    gripperType: GripperType,
    gearRatio: real,
    closingDirectionIsPositive: bool,
    speedOpening: Uint8,         // _speed[0]
    speedClosing: Uint8,         // _speed[1]
    degOpen: real,               // motor angles
    degClosed: real,
    degOpenLimit: real,
    degCloseLimit: real,
    closingWidthOffset: real,
    tcpOffset: Vec3,
    servoId: int,
    servoWrites: seq<real>       // every angle written to the plain servo, oldest first
  )

  /** The result of a gripper call that may move: its answer, the gripper, and the robot (whose bus a smart servo shares). */
  datatype Step = Step(ok: bool, gripper: Gripper, robot: Robot)

  /** The constructor: neither open nor closed; the other members are assumed zero, as for a global object (no application declares a gripper). */
  function NewGripper(): (g: Gripper)
    ensures !g.isClosed && !g.isOpened && g.servoWrites == []
  {
    Gripper(false, false, 0.0, SmartServo, 0.0, false, 0, 0, 0.0, 0.0, 0.0, 0.0, 0.0, Vec3(0.0, 0.0, 0.0), 0, [])
  }

  /** setParams: stores the targets and limits; the closing direction is positive iff the closed angle is above the open one. */
  function SetParams(g: Gripper, degClosed: real, degOpen: real, degCloseLimit: real, degOpenLimit: real,
                     gearRatio: real, closingWidthOffset: real): (g': Gripper)
    ensures g'.closingDirectionIsPositive <==> degClosed > degOpen
    ensures g' == g.(degClosed := degClosed, degOpen := degOpen, degCloseLimit := degCloseLimit,
                     degOpenLimit := degOpenLimit, gearRatio := gearRatio, closingWidthOffset := closingWidthOffset,
                     closingDirectionIsPositive := g'.closingDirectionIsPositive)
  {
    g.(degClosed := degClosed, degOpen := degOpen, degCloseLimit := degCloseLimit, degOpenLimit := degOpenLimit,
       gearRatio := gearRatio, closingWidthOffset := closingWidthOffset,
       closingDirectionIsPositive := degClosed > degOpen)
  }

  /** setParams with its two defaulted arguments left out. */
  function SetParamsDefault(g: Gripper, degClosed: real, degOpen: real, degCloseLimit: real, degOpenLimit: real): (g': Gripper)
    ensures g'.gearRatio == DEFAULT_GEAR_RATIO && g'.closingWidthOffset == DEFAULT_CLOSING_WIDTH_OFFSET
    ensures g' == SetParams(g, degClosed, degOpen, degCloseLimit, degOpenLimit, 7.87, 101.2)
  {
    SetParams(g, degClosed, degOpen, degCloseLimit, degOpenLimit, DEFAULT_GEAR_RATIO, DEFAULT_CLOSING_WIDTH_OFFSET)
  }

  /** setSpeed(opening, closing): the two speeds are set independently; nothing else changes. */
  function SetSpeed2(g: Gripper, speedOpening: Uint8, speedClosing: Uint8): (g': Gripper)
    ensures g'.speedOpening == speedOpening && g'.speedClosing == speedClosing
    ensures g' == g.(speedOpening := g'.speedOpening, speedClosing := g'.speedClosing)
  {
    g.(speedOpening := speedOpening, speedClosing := speedClosing)
  }

  /** setSpeed(speed): the same speed for opening and closing. */
  function SetSpeed(g: Gripper, speed: Uint8): (g': Gripper)
    ensures g'.speedOpening == speed && g'.speedClosing == speed
    ensures g' == SetSpeed2(g, speed, speed)
  {
    SetSpeed2(g, speed, speed)
  }

  /** setTCPoffset: the gripper keeps the offset and hands it on to the robot, whose pose becomes invalid. */
  function SetTCPoffset(g: Gripper, r: Robot, xOffset: real, yOffset: real, zOffset: real): (s: Step)
    ensures s.gripper == g.(tcpOffset := Vec3(xOffset, yOffset, zOffset))
    ensures s.robot == Motion.SetTCPoffset(r, xOffset, yOffset, zOffset) && !s.robot.tcpPoseIsValid
    ensures s.robot.sent == r.sent
  {
    Step(true, g.(tcpOffset := Vec3(xOffset, yOffset, zOffset)), Motion.SetTCPoffset(r, xOffset, yOffset, zOffset))
  }

  /** functionNotImplementedError: reports the gripper type as unsupported and answers false. */
  function FunctionNotImplementedError(): (b: bool)
    ensures !b
  {
    false
  }

  /**
   checkIfAngleValid: a motor angle is reachable iff it lies between the
   close limit and the open limit, both inclusive, in the gripper's closing
   direction.
   */
  predicate AngleValid(g: Gripper, angle: real)
  {
    !((g.closingDirectionIsPositive && (angle > g.degCloseLimit || angle < g.degOpenLimit))
      || (!g.closingDirectionIsPositive && (angle < g.degCloseLimit || angle > g.degOpenLimit)))
  }

  /** The valid motor angles form the closed interval between the two limits. */
  lemma AngleValidIsInterval(g: Gripper, angle: real)
    ensures g.closingDirectionIsPositive ==> (AngleValid(g, angle) <==> g.degOpenLimit <= angle <= g.degCloseLimit)
    ensures !g.closingDirectionIsPositive ==> (AngleValid(g, angle) <==> g.degCloseLimit <= angle <= g.degOpenLimit)
  {
  }

  /** isClosed: the flag the last close, open or move left behind, not a reading. */
  function IsClosed(g: Gripper): (closed: bool)
    ensures closed <==> g.isClosed
  {
    g.isClosed
  }

  /** isOpened: the flag the last open, close or move left behind, not a reading. */
  function IsOpened(g: Gripper): (isOpen: bool)
    ensures isOpen <==> g.isOpened
  {
    g.isOpened
  }

  /* ---------------- waiting for the smart servo ---------------- */

  /** One round of waitUntilFinished: two angle readings 50 ms apart and the milliseconds since the wait began. */
  datatype GripperPoll = GripperPoll(first: int, second: int, elapsed: int)

  ghost predicate PollEnds(p: GripperPoll)
  {
    p.first == p.second || p.elapsed > TIMEOUT_DELAY_GRIPPER
  }

  /** The clock guarantees that some round ends the wait. */
  ghost predicate WaitEnds(polls: seq<GripperPoll>)
  {
    exists j :: 0 <= j < |polls| && PollEnds(polls[j])
  }

  /** The round at which waitUntilFinished stops: the first one that ends the wait, from round i on. */
  function FinishRound(polls: seq<GripperPoll>, i: nat): (k: nat)
    requires exists j :: i <= j < |polls| && PollEnds(polls[j])
    ensures i <= k < |polls| && PollEnds(polls[k])
    ensures forall j :: i <= j < k ==> !PollEnds(polls[j])
    decreases |polls| - i
  {
    if polls[i].first == polls[i].second || polls[i].elapsed > TIMEOUT_DELAY_GRIPPER then i
    else FinishRound(polls, i + 1)
  }

  /**
   waitUntilFinished: true iff the servo stood still between two readings
   before the timeout; the last reading becomes the current angle.
   */
  function WaitUntilFinished(g: Gripper, polls: seq<GripperPoll>): (w: (bool, Gripper))
    requires WaitEnds(polls)
    ensures var k := FinishRound(polls, 0);
            && (w.0 <==> polls[k].first == polls[k].second)
            && (!w.0 ==> polls[k].elapsed > TIMEOUT_DELAY_GRIPPER)
            && w.1 == g.(currentAngle := polls[k].second as real)
  {
    var k := FinishRound(polls, 0);
    (polls[k].first == polls[k].second, g.(currentAngle := polls[k].second as real))
  }

  /** A still servo in the first round ends the wait at once with success, even past the timeout. */
  lemma StillServoFinishes(g: Gripper, polls: seq<GripperPoll>)
    requires |polls| > 0 && polls[0].first == polls[0].second
    ensures WaitEnds(polls) && WaitUntilFinished(g, polls).0
  {
    assert PollEnds(polls[0]);
  }

  /* ---------------- plain-servo sweep ---------------- */

  /**
   The angles a plain-servo move writes, one motor degree at a time, from
   the current motor angle towards the goal: every write is strictly past
   the start and never past the goal, and the last one is within one degree
   of the goal.
   */
  function SweepWrites(start: real, goal: real): (w: seq<real>)
    ensures goal > start ==> forall k :: 0 <= k < |w| ==> start < w[k] <= goal
    ensures goal <= start ==> forall k :: 0 <= k < |w| ==> goal <= w[k] < start
    ensures forall k :: 0 < k < |w| ==> w[k] - w[k - 1] == (if goal > start then 1.0 else -1.0)
    ensures |w| > 0 && goal > start ==> goal - 1.0 < w[|w| - 1]
    ensures |w| > 0 && goal <= start ==> w[|w| - 1] < goal + 1.0
    ensures |w| == 0 ==> goal - 1.0 < start < goal + 1.0
  {
    if goal > start then seq((goal - start).Floor, k requires 0 <= k => start + (k + 1) as real)
    else seq((start - goal).Floor, k requires 0 <= k => start - (k + 1) as real)
  }

  /** The stepping loop of the plain-servo move as written: step, stop once past the goal, otherwise write. */
  method ServoSweep(start: real, goal: real) returns (writes: seq<real>)
    ensures writes == SweepWrites(start, goal)
  {
    var up := !(goal <= start);
    var temp := start;
    writes := [];
    while true
      invariant up ==> temp == start + |writes| as real && temp <= goal
      invariant !up ==> temp == start - |writes| as real && goal <= temp
      invariant forall k :: 0 <= k < |writes| ==> writes[k] == if up then start + (k + 1) as real else start - (k + 1) as real
      decreases if up then (goal - temp).Floor else (temp - goal).Floor
    {
      if up {
        temp := temp + 1.0;
        if temp > goal {
          break;
        }
      } else {
        temp := temp - 1.0;
        if temp < goal {
          break;
        }
      }
      writes := writes + [temp];
    }
    assert up ==> |writes| == (goal - start).Floor;
    assert !up ==> |writes| == (start - goal).Floor;
  }

  /**
   The real angle a plain servo stands at after a move to a motor angle: the
   inverse of `angle * gear + degClosed`.
   */
  function ServoAngleOf(g: Gripper, motor: real): (a: real)
    requires g.gearRatio != 0.0
    ensures a * g.gearRatio + g.degClosed == motor
  {
    (motor - g.degClosed) / g.gearRatio
  }

  /** The angle stored after a plain-servo move, as written: `motor / gear - degClosed`. */
  function ServoAngleAsWritten(g: Gripper, motor: real): (a: real)
    requires g.gearRatio != 0.0
    ensures (a + g.degClosed) * g.gearRatio == motor
  {
    motor / g.gearRatio - g.degClosed
  }

  /** The corrected conversion gives back the angle that was asked for. */
  lemma ServoAngleRoundTrip(g: Gripper, angle: real)
    requires g.gearRatio != 0.0
    ensures ServoAngleOf(g, angle * g.gearRatio + g.degClosed) == angle
  {
  }

  /**
   As written, the stored angle is right only for a gear ratio of 1 (what
   begin(pin) sets): with gear 2 and closed at 65, a move to 10 records -22.5.
   */
  lemma ServoAngleAsWrittenIsOff(g: Gripper, angle: real)
    requires g.gearRatio != 0.0
    ensures g.gearRatio == 1.0 ==> ServoAngleAsWritten(g, angle * g.gearRatio + g.degClosed) == angle
    ensures g.gearRatio == 2.0 && g.degClosed == 65.0 && angle == 10.0 ==>
              ServoAngleAsWritten(g, angle * g.gearRatio + g.degClosed) == -22.5
  {
  }

  /* ---------------- moves ---------------- */

  /** The angle readings of the smart servo during one move: before it, after the command, and the rounds of any wait. */
  datatype SmartIo = SmartIo(before: int, after: int, polls: seq<GripperPoll>)

  /** What the hardware must provide: a wait that ends (smart servo) and a usable gear ratio (plain servo). */
  ghost predicate Serviceable(g: Gripper, io: SmartIo)
  {
    && (g.gripperType == SmartServo ==> WaitEnds(io.polls))
    && (g.gripperType == PlainServo ==> g.gearRatio != 0.0)
  }

  /** The motor angle a move to `angle` aims at: the angle itself for a smart servo, converted from real degrees for a plain one. */
  function MotorAngle(g: Gripper, angle: real): real
  {
    if g.gripperType == SmartServo then angle else angle * g.gearRatio + g.degClosed
  }

  /** The smart-servo branch of moveToAngle. */
  function SmartMove(g: Gripper, r: Robot, angle: real, speed: Uint8, io: SmartIo): (s: Step)
    requires WaitEnds(io.polls)
    ensures !AngleValid(g, angle) ==> s == Step(false, g, r)
    ensures AngleValid(g, angle) ==>
              && s.robot == r.(sent := r.sent + [MoveTo(g.servoId + 1, Trunc(angle), speed)])
              && (s.gripper.isOpened, s.gripper.isClosed) ==
                 (if Abs(io.before as real - angle) > 10.0 then (g.isOpened, g.isClosed) else (false, false))
              && (Abs(io.before as real - angle) <= 10.0 ==> s.ok)
              && (Abs(io.before as real - angle) > 10.0 ==> s.ok == WaitUntilFinished(g, io.polls).0)
  {
    if !AngleValid(g, angle) then Step(false, g, r)
    else
      var r' := r.(sent := r.sent + [MoveTo(g.servoId + 1, Trunc(angle), speed)]);
      var g1 := g.(currentAngle := io.after as real);
      if Abs(io.before as real - angle) > 10.0 then
        var w := WaitUntilFinished(g1, io.polls);
        Step(w.0, w.1, r')
      else Step(true, g1.(isOpened := false, isClosed := false), r')
  }

  /**
   The plain-servo branch of moveToAngle: real degrees are converted to motor
   degrees, checked, and swept to; the angle recorded afterwards is the
   firmware's `motor / gear - degClosed`, which is the angle asked for only
   with a gear ratio of 1.
   */
  function ServoMove(g: Gripper, r: Robot, angle: real): (s: Step)
    requires g.gearRatio != 0.0
    ensures !AngleValid(g, angle * g.gearRatio + g.degClosed) ==> s == Step(false, g, r)
    ensures AngleValid(g, angle * g.gearRatio + g.degClosed) ==>
              && s.ok && s.robot == r
              && !s.gripper.isOpened && !s.gripper.isClosed
              && (s.gripper.currentAngle + g.degClosed) * g.gearRatio == angle * g.gearRatio + g.degClosed
              && (g.gearRatio == 1.0 ==> s.gripper.currentAngle == angle)
              && s.gripper.servoWrites == g.servoWrites + SweepWrites(g.currentAngle * g.gearRatio + g.degClosed, angle * g.gearRatio + g.degClosed)
  {
    var motor := angle * g.gearRatio + g.degClosed;
    if !AngleValid(g, motor) then Step(false, g, r)
    else
      var start := g.currentAngle * g.gearRatio + g.degClosed;
      var stored := ServoAngleAsWritten(g, motor);
      ServoAngleAsWrittenIsOff(g, angle);
      Step(true, g.(servoWrites := g.servoWrites + SweepWrites(start, motor),
                    currentAngle := stored, isOpened := false, isClosed := false), r)
  }

  /**
   moveToAngle: a move whose motor angle is not valid does nothing and
   answers false. A smart servo gets a moveTo on its bus id; after a move of
   more than 10 degrees the answer is that of waitUntilFinished and the
   open/closed flags are left as they were, otherwise both flags are cleared
   and the answer is true. A plain servo is swept there and both flags are cleared.
   */
  function MoveToAngle(g: Gripper, r: Robot, angle: real, speed: Uint8, io: SmartIo): (s: Step)
    requires Serviceable(g, io)
    ensures !AngleValid(g, MotorAngle(g, angle)) ==> s == Step(false, g, r)
    ensures s.ok ==> AngleValid(g, MotorAngle(g, angle))
    ensures g.gripperType == SmartServo ==> s == SmartMove(g, r, angle, speed, io)
    ensures g.gripperType == PlainServo ==> s == ServoMove(g, r, angle)
  {
    match g.gripperType
    case SmartServo => SmartMove(g, r, angle, speed, io)
    case PlainServo => ServoMove(g, r, angle)
  }

  function Abs(x: real): real
  {
    if x < 0.0 then -x else x
  }

  /** getCurrentOpeningAngle: a smart servo is read (and the reading kept), a plain servo answers its stored angle. */
  function GetCurrentOpeningAngle(g: Gripper, reading: int): (a: (real, Gripper))
    ensures g.gripperType == SmartServo ==> a == (reading as real, g.(currentAngle := reading as real))
    ensures g.gripperType == PlainServo ==> a == (g.currentAngle, g)
  {
    if g.gripperType == SmartServo then (reading as real, g.(currentAngle := reading as real))
    else (g.currentAngle, g)
  }

  /**
   close: moves to the closed angle (0 real degrees for a plain servo) at
   the closing speed, then reports the gripper closed and not open, whether
   or not the move was carried out.
   */
  function Close(g: Gripper, r: Robot, io: SmartIo): (s: Step)
    requires Serviceable(g, io)
    ensures IsClosed(s.gripper) && !IsOpened(s.gripper)
    ensures var target := if g.gripperType == PlainServo then 0.0 else g.degClosed;
            var m := MoveToAngle(g, r, target, g.speedClosing, io);
            s == Step(m.ok, m.gripper.(isOpened := false, isClosed := true), m.robot)
  {
    var target := if g.gripperType == PlainServo then 0.0 else g.degClosed;
    var m := MoveToAngle(g, r, target, g.speedClosing, io);
    Step(m.ok, m.gripper.(isOpened := false, isClosed := true), m.robot)
  }

  /**
   open: moves to the open angle at the opening speed (for a plain servo
   the target is `degOpen / gear - degClosed`), then reports the gripper
   open and not closed, whether or not the move was carried out.
   */
  function Open(g: Gripper, r: Robot, io: SmartIo): (s: Step)
    requires Serviceable(g, io)
    ensures IsOpened(s.gripper) && !IsClosed(s.gripper)
    ensures var target := if g.gripperType == PlainServo then g.degOpen / g.gearRatio - g.degClosed else g.degOpen;
            var m := MoveToAngle(g, r, target, g.speedOpening, io);
            s == Step(m.ok, m.gripper.(isOpened := true, isClosed := false), m.robot)
  {
    var target := if g.gripperType == PlainServo then g.degOpen / g.gearRatio - g.degClosed else g.degOpen;
    var m := MoveToAngle(g, r, target, g.speedOpening, io);
    Step(m.ok, m.gripper.(isOpened := true, isClosed := false), m.robot)
  }

  /** A closed target outside the limits is not moved to, yet the gripper reports itself closed. */
  lemma CloseReportsClosedWhenRefused(g: Gripper, r: Robot, io: SmartIo)
    requires Serviceable(g, io) && g.gripperType == SmartServo && !AngleValid(g, g.degClosed)
    ensures var s := Close(g, r, io);
            !s.ok && s.robot == r && IsClosed(s.gripper)
  {
  }

  /** A smart-servo close whose target is valid sends exactly one moveTo at the closing speed to the gripper's bus id. */
  lemma CloseCommandsClosedAngle(g: Gripper, r: Robot, io: SmartIo)
    requires Serviceable(g, io) && g.gripperType == SmartServo && AngleValid(g, g.degClosed)
    ensures Close(g, r, io).robot.sent == r.sent + [MoveTo(g.servoId + 1, Trunc(g.degClosed), g.speedClosing)]
  {
  }

  /** moveAngle: a move to the current opening angle plus the increment. */
  function MoveAngle(g: Gripper, r: Robot, inc: real, speed: Uint8, io: SmartIo): (s: Step)
    requires Serviceable(g, io)
    ensures var c := GetCurrentOpeningAngle(g, io.before);
            s == MoveToAngle(c.1, r, c.0 + inc, speed, io)
    ensures s.ok ==> AngleValid(g, MotorAngle(g, GetCurrentOpeningAngle(g, io.before).0 + inc))
  {
    var c := GetCurrentOpeningAngle(g, io.before);
    MoveToAngle(c.1, r, c.0 + inc, speed, io)
  }

  /** The motor angle moveToWidth aims at: the width beyond the closed width, times the gear ratio, signed by the closing direction. */
  function WidthAngle(g: Gripper, width: real): real
  {
    (if g.closingDirectionIsPositive then -1.0 else 1.0) * (width - g.closingWidthOffset) * g.gearRatio
  }

  /**
   moveToWidth, as intended: a smart servo moves to the angle of that width
   and answers whether it did; a plain servo is not supported.
   */
  function MoveToWidth(g: Gripper, r: Robot, width: real, speed: Uint8, io: SmartIo): (s: Step)
    requires Serviceable(g, io)
    ensures g.gripperType == PlainServo ==> s == Step(false, g, r)
    ensures g.gripperType == SmartServo ==> s == MoveToAngle(g, r, WidthAngle(g, width), speed, io)
    ensures s.ok ==> g.gripperType == SmartServo && AngleValid(g, WidthAngle(g, width))
  {
    if g.gripperType == SmartServo then MoveToAngle(g, r, WidthAngle(g, width), speed, io)
    else Step(FunctionNotImplementedError(), g, r)
  }

  /**
   moveToWidth as written: the smart-servo branch runs the move but returns
   no value, so the answer is whatever the caller finds (`garbage`).
   */
  function MoveToWidthAsWritten(g: Gripper, r: Robot, width: real, speed: Uint8, io: SmartIo, garbage: bool): (s: Step)
    requires Serviceable(g, io)
    ensures g.gripperType == PlainServo ==> !s.ok
    ensures g.gripperType == SmartServo ==> s.ok == garbage
    ensures s.robot == MoveToWidth(g, r, width, speed, io).robot && s.gripper == MoveToWidth(g, r, width, speed, io).gripper
  {
    if g.gripperType == SmartServo then
      var m := MoveToAngle(g, r, WidthAngle(g, width), speed, io);
      Step(garbage, m.gripper, m.robot)
    else Step(FunctionNotImplementedError(), g, r)
  }

  /** As written, a width beyond the limits can be reported as reached though nothing was sent; the intended answer is false. */
  lemma MoveToWidthMayReportRefusedMove(g: Gripper, r: Robot, width: real, speed: Uint8, io: SmartIo)
    requires Serviceable(g, io) && g.gripperType == SmartServo && !AngleValid(g, WidthAngle(g, width))
    ensures MoveToWidthAsWritten(g, r, width, speed, io, true).ok
    ensures MoveToWidthAsWritten(g, r, width, speed, io, true).robot.sent == r.sent
    ensures !MoveToWidth(g, r, width, speed, io).ok
  {
  }

  /** getCurrentOpeningWidth: the closed width plus the opening angle over the gear ratio; 0 (false) for a plain servo. */
  function GetCurrentOpeningWidth(g: Gripper, reading: int): (w: (real, Gripper))
    requires g.gripperType == SmartServo ==> g.gearRatio != 0.0
    ensures g.gripperType == SmartServo ==> w.0 >= g.closingWidthOffset && w.1 == g.(currentAngle := reading as real)
    ensures g.gripperType == PlainServo ==> w == (0.0, g)
  {
    if g.gripperType == SmartServo then
      var c := GetCurrentOpeningAngle(g, reading);
      (g.closingWidthOffset + Abs(c.0 / g.gearRatio), c.1)
    else (if FunctionNotImplementedError() then 1.0 else 0.0, g)
  }

  /** With a positive gear ratio, the width read from a smart gripper converts back to the magnitude of the angle read, signed by the closing direction. */
  lemma WidthRoundTrip(g: Gripper, reading: int)
    requires g.gripperType == SmartServo && g.gearRatio > 0.0
    ensures var w := GetCurrentOpeningWidth(g, reading).0;
            WidthAngle(g, w) == (if g.closingDirectionIsPositive then -1.0 else 1.0) * Abs(reading as real)
  {
    var q := reading as real / g.gearRatio;
    assert q * g.gearRatio == reading as real;
    if q < 0.0 {
      assert Abs(q) * g.gearRatio == -(q * g.gearRatio);
      assert reading as real < 0.0;
    } else {
      assert reading as real >= 0.0;
    }
  }

  /**
   moveWidth: for a smart servo, moveToWidth (as written) to the current
   width plus the increment, so its answer is the same unset value
   (`garbage`); not supported for a plain servo.
   */
  function MoveWidth(g: Gripper, r: Robot, width: real, speed: Uint8, io: SmartIo, garbage: bool): (s: Step)
    requires Serviceable(g, io) && (g.gripperType == SmartServo ==> g.gearRatio != 0.0)
    ensures g.gripperType == PlainServo ==> s == Step(false, g, r)
    ensures g.gripperType == SmartServo ==>
              var c := GetCurrentOpeningWidth(g, io.before);
              && s == MoveToWidthAsWritten(c.1, r, c.0 + width, speed, io, garbage)
              && s.ok == garbage
              && s.robot == MoveToAngle(c.1, r, WidthAngle(c.1, c.0 + width), speed, io).robot
  {
    if g.gripperType == SmartServo then
      var c := GetCurrentOpeningWidth(g, io.before);
      MoveToWidthAsWritten(c.1, r, c.0 + width, speed, io, garbage)
    else Step(FunctionNotImplementedError(), g, r)
  }

  /* ---------------- setup ---------------- */

  /**
   begin() for a smart-servo gripper: it takes the bus id after the robot's
   servos, speed 50 both ways, closed at 0 and open at -500 (limits 0 and
   -550), and a TCP offset of 38 mm below the flange.
   */
  function Begin(g: Gripper, r: Robot): (s: Step)
    ensures var g' := s.gripper;
            && g'.gripperType == SmartServo && g'.servoId == r.numServos
            && g'.speedOpening == 50 && g'.speedClosing == 50
            && g'.degClosed == 0.0 && g'.degOpen == -500.0 && g'.degCloseLimit == 0.0 && g'.degOpenLimit == -550.0
            && g'.gearRatio == DEFAULT_GEAR_RATIO && g'.closingWidthOffset == DEFAULT_CLOSING_WIDTH_OFFSET
            && g'.closingDirectionIsPositive
            && g'.tcpOffset == Vec3(0.0, 0.0, -38.0)
            && g'.isOpened == g.isOpened && g'.isClosed == g.isClosed
    ensures s.robot == Motion.SetTCPoffset(r, 0.0, 0.0, -38.0)
  {
    var g1 := g.(gripperType := SmartServo, servoId := r.numServos);
    var g2 := SetSpeed(g1, 50);
    var g3 := SetParamsDefault(g2, 0.0, -500.0, 0.0, -550.0);
    SetTCPoffset(g3, r, 0.0, 0.0, -38.0)
  }

  /** After begin(), both targets are within the limits, and the valid angles are exactly [-550, 0]. */
  lemma BeginTargetsValid(g: Gripper, r: Robot, a: real)
    ensures var g' := Begin(g, r).gripper;
            && AngleValid(g', g'.degClosed) && AngleValid(g', g'.degOpen)
            && (AngleValid(g', a) <==> -550.0 <= a <= 0.0)
  {
  }

  /**
   begin(pin) for a plain-servo gripper: closed at 65 and open at 140 motor
   degrees (limits 50 and 155), gear 1, width offset 0, TCP offset 18 mm
   below the flange; then the gripper is opened.
   */
  function BeginServo(g: Gripper, r: Robot): (s: Step)
    ensures var g' := s.gripper;
            && g'.gripperType == PlainServo && g'.servoId == -1
            && g'.speedOpening == 50 && g'.speedClosing == 50
            && g'.degClosed == 65.0 && g'.degOpen == 140.0 && g'.gearRatio == 1.0
            && g'.degCloseLimit == 50.0 && g'.degOpenLimit == 155.0
            && g'.closingWidthOffset == 0.0 && !g'.closingDirectionIsPositive
            && g'.tcpOffset == Vec3(0.0, 0.0, -18.0)
            && IsOpened(g') && !IsClosed(g')
    ensures s.ok && s.gripper.currentAngle == 75.0
    ensures s.robot == Motion.SetTCPoffset(r, 0.0, 0.0, -18.0)
  {
    var g1 := g.(gripperType := PlainServo, servoId := -1);
    var g2 := SetSpeed(g1, 50);
    var g3 := SetParams(g2, 65.0, 140.0, 50.0, 155.0, 1.0, 0.0);
    var t := SetTCPoffset(g3, r, 0.0, 0.0, -18.0);
    Open(t.gripper, t.robot, SmartIo(0, 0, []))
  }

  /** From a fresh gripper, begin(pin) sweeps the servo from 65 up to 140 one degree at a time and stands at 75 real degrees. */
  lemma BeginServoSweepsOpen(r: Robot)
    ensures var s := BeginServo(NewGripper(), r);
            && s.ok
            && s.gripper.currentAngle == 75.0
            && |s.gripper.servoWrites| == 75
            && s.gripper.servoWrites[0] == 66.0 && s.gripper.servoWrites[74] == 140.0
  {
    var w := SweepWrites(65.0, 140.0);
    assert (140.0 - 65.0).Floor == 75;
    assert w[0] == 66.0 && w[74] == 140.0;
  }

  /* ---------------- force closing and calibration ---------------- */

  /** One round of closeToForce: two current readings 20 ms apart, the milliseconds since it began, and the angle then read. */
  datatype ForceSample = ForceSample(current1: real, current2: real, elapsed: int, angle: int)

  ghost predicate Grasped(s: ForceSample, maxCurrent: real)
  {
    s.current1 > maxCurrent && s.current2 > maxCurrent
  }

  ghost predicate ForceEnds(s: ForceSample, maxCurrent: real)
  {
    Grasped(s, maxCurrent) || s.elapsed > TIMEOUT_DELAY_GRIPPER
  }

  /** The step closeToForce moves by: 5 motor degrees in the closing direction. */
  function ClosingStep(g: Gripper): int
  {
    if g.closingDirectionIsPositive then FORCE_STEP else -FORCE_STEP
  }

  /**
   closeToForce: steps the smart servo in the closing direction at speed 20
   until two current readings 20 ms apart both exceed `maxCurrent` (the
   gripper is then closed and its angle read), or until the timeout passes
   (false). A plain servo is not supported.
   */
  method CloseToForce(g: Gripper, r: Robot, maxCurrent: real, samples: seq<ForceSample>) returns (ok: bool, rounds: nat, s: Step)
    requires g.gripperType == SmartServo ==> exists j :: 0 <= j < |samples| && ForceEnds(samples[j], maxCurrent)
    ensures g.gripperType == PlainServo ==> !ok && rounds == 0 && s == Step(false, g, r)
    ensures s.ok == ok
    ensures g.gripperType == SmartServo ==>
              && 0 < rounds <= |samples|
              && ForceEnds(samples[rounds - 1], maxCurrent)
              && (forall j :: 0 <= j < rounds - 1 ==> !ForceEnds(samples[j], maxCurrent))
              && (ok <==> Grasped(samples[rounds - 1], maxCurrent))
              && s.robot == r.(sent := r.sent + seq(rounds, _ => MoveBy(g.servoId + 1, ClosingStep(g), FORCE_SPEED)))
              && (ok ==> s.gripper == g.(currentAngle := samples[rounds - 1].angle as real, isOpened := false, isClosed := true))
              && (!ok ==> s.gripper == g)
  {
    if g.gripperType == PlainServo {
      return false, 0, Step(FunctionNotImplementedError(), g, r);
    }
    var cmd := MoveBy(g.servoId + 1, ClosingStep(g), FORCE_SPEED);
    var sent := r.sent;
    rounds := 0;
    ghost var j0 :| 0 <= j0 < |samples| && ForceEnds(samples[j0], maxCurrent);
    while true
      invariant 0 <= rounds <= j0
      invariant forall j :: 0 <= j < rounds ==> !ForceEnds(samples[j], maxCurrent)
      invariant sent == r.sent + seq(rounds, _ => cmd)
      decreases j0 - rounds
    {
      sent := sent + [cmd];
      var sample := samples[rounds];
      rounds := rounds + 1;
      assert sent == r.sent + seq(rounds, _ => cmd);
      if sample.current1 > maxCurrent && sample.current2 > maxCurrent {
        ok := true;
        s := Step(true, g.(currentAngle := sample.angle as real, isOpened := false, isClosed := true), r.(sent := sent));
        return;
      }
      if sample.elapsed > TIMEOUT_DELAY_GRIPPER {
        ok := false;
        s := Step(false, g, r.(sent := sent));
        return;
      }
    }
  }

  /**
   autoCalibrate: closes to force with the default current limit (70); on
   success the servo's position becomes its zero and, from the angle then read, the closed angle and close limit
   are set to it and the open angle and open limit 500 and 550 degrees away
   against the closing direction (gear ratio and width offset back to their
   defaults); then the gripper is closed. A plain servo is not supported.
   */
  method AutoCalibrate(g: Gripper, r: Robot, samples: seq<ForceSample>, zeroReading: int, io: SmartIo)
    returns (ok: bool, rounds: nat, s: Step)
    requires g.gripperType == SmartServo ==> exists j :: 0 <= j < |samples| && ForceEnds(samples[j], DEFAULT_MAX_CURRENT)
    requires g.gripperType == SmartServo ==> WaitEnds(io.polls)
    ensures g.gripperType == PlainServo ==> !ok && rounds == 0 && s == Step(false, g, r)
    ensures g.gripperType == SmartServo ==>
              && 0 < rounds <= |samples|
              && ForceEnds(samples[rounds - 1], DEFAULT_MAX_CURRENT)
              && (forall j :: 0 <= j < rounds - 1 ==> !ForceEnds(samples[j], DEFAULT_MAX_CURRENT))
              && (ok <==> Grasped(samples[rounds - 1], DEFAULT_MAX_CURRENT))
              && (!ok ==> s.robot.sent == r.sent + seq(rounds, _ => MoveBy(g.servoId + 1, ClosingStep(g), FORCE_SPEED)))
    ensures ok ==>
              var c := zeroReading as real;
              var f := if g.closingDirectionIsPositive then -1.0 else 1.0;
              && g.gripperType == SmartServo
              && s.gripper.degClosed == c && s.gripper.degCloseLimit == c
              && s.gripper.degOpen == c + f * 500.0 && s.gripper.degOpenLimit == c + f * 550.0
              && s.gripper.gearRatio == DEFAULT_GEAR_RATIO
              && s.gripper.closingDirectionIsPositive == g.closingDirectionIsPositive
              && IsClosed(s.gripper) && !IsOpened(s.gripper)
              && r.sent <= s.robot.sent
              && SetZero(g.servoId + 1) in s.robot.sent[|r.sent|..]
    ensures !ok ==> s.gripper.degClosed == g.degClosed && s.gripper.degOpen == g.degOpen
  {
    if g.gripperType == PlainServo {
      return false, 0, Step(FunctionNotImplementedError(), g, r);
    }
    var grasped, f;
    grasped, rounds, f := CloseToForce(g, r, DEFAULT_MAX_CURRENT, samples);
    if !grasped {
      return false, rounds, f;
    }
    var r2 := f.robot.(sent := f.robot.sent + [SetZero(g.servoId + 1)]);
    var c := GetCurrentOpeningAngle(f.gripper, zeroReading);
    var factor := if f.gripper.closingDirectionIsPositive then -1.0 else 1.0;
    var g2 := SetParamsDefault(c.1, c.0, c.0 + factor * 500.0, c.0, c.0 + factor * 550.0);
    var closed := Close(g2, r2, io);
    assert r2.sent[|r.sent|..] == seq(rounds, _ => MoveBy(g.servoId + 1, ClosingStep(g), FORCE_SPEED)) + [SetZero(g.servoId + 1)];
    assert r2.sent <= closed.robot.sent;
    assert closed.robot.sent[|r.sent|..][rounds] == SetZero(g.servoId + 1);
    return true, rounds, closed;
  }
}
