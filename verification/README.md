# Morobot fruit-sorting arm: a Dafny model

This project models the firmware of the Morobot fruit-sorting demonstrator.
It covers three parts:

- The Morobot arm library. This is the `morobotClass` base class with two geometries: the three-joint
  parallel-link `morobot_p` and the planar two-joint `morobot_2d`.
- The end effectors: the smart-servo or plain-servo `gripper`, and the `binaryEEF` relay.
- The application that ties the arm to MQTT messages and to an ultrasonic distance sensor. This is
  `main.cpp` with its `callback` and `loop`, and `DistanceSensor`.

Modules:

- `Angles`: floats as `real`, NaN as a separate case, and the float-to-`long` conversion (truncation
  toward zero).
- `Robot`: the state a `morobotClass` object keeps. The smart-servo bus is seen as an append-only log
  of commands `sent` (bus ids are servo ids + 1). Also here: `setBusy`, `setIdle`,
  `checkIfMotorMoves`, `isReady` and `waitUntilIsReady`.
- `MorobotP` and `Morobot2d`: joint limits, the angle checks (including morobot-p's coupling of
  servos 1 and 2), the TCP offset, and the inverse and forward kinematics' bookkeeping.
- `Motion`: the base-class moves (`moveToAngle(s)`, `moveAngle(s)`, `moveToPose`, `moveXYZ`,
  `moveInDirection`) dispatched on the robot kind. Also speed, zero, brakes and getters.
- `Eef`: `binaryEEF` and `gripper` (begin, parameters, speeds, moves by angle and by width, close/open,
  the waiting loop, force closing and auto-calibration).
- `DistanceSensor` and `Dispatch`: the sensor's sticky drop flag, and one pass of the application's
  `loop` together with its MQTT `callback`.

Hardware is seen through parameters:

- Angle readings of the servos are snapshots. A call that reads once gets `measured: seq<int>`. A
  whole-robot move gets one snapshot per servo, `readings[i]`, taken when servo i is checked.
- The rounds of a waiting loop are a sequence of polls. A precondition states that the clock
  eventually ends the wait.
- The trigonometric solvers are uninterpreted functions in a `Kinematics` record. The model states
  what is done with their answers: the checks, the stored goals, the offsets and the invalidation of
  the pose.

The library headers under `lib/morobot-arduino_esp-main/src` give the promised behaviour. The method
bodies of `morobot.h`, `eef.h` and `morobot_2d.h` follow the `.cpp` files of the same library version
kept in the `Morobot _WithBuffer` folder. The Model table cites the header declaration for those
members; the Findings table cites the `.cpp` lines themselves.

## Model

| member | source | states |
|---|---|---|
| Angles.Trunc | Code/MQTT_morobot/VisualStudioCode/Morobot/lib/morobot-arduino_esp-main/src/morobot_p.cpp:44-49 | Storing a float angle in a `long` truncates toward zero: the result is the integer within one degree on the side of zero. |
| Robot.NewRobot | Code/MQTT_morobot/VisualStudioCode/Morobot/lib/morobot-arduino_esp-main/src/morobot.h:435-443 | A new robot has an invalid TCP pose, no servo marked as reached, an empty bus log, and the joint-limit table of its geometry. |
| Robot.SetBusy | Code/MQTT_morobot/VisualStudioCode/Morobot/lib/morobot-arduino_esp-main/src/morobot.h:148-153 | Every servo of the robot is marked not reached; the unused slots and all other state are unchanged. |
| Robot.SetIdle | Code/MQTT_morobot/VisualStudioCode/Morobot/lib/morobot-arduino_esp-main/src/morobot.h:155-159 | Every servo of the robot is marked reached; the unused slots and all other state are unchanged. |
| Robot.BusyIsNotIdle | Code/MQTT_morobot/VisualStudioCode/Morobot/lib/morobot-arduino_esp-main/src/morobot.h:148-159 | After setBusy the robot is busy and not idle; after setIdle it is idle and not busy. |
| Robot.IsReady | Code/MQTT_morobot/VisualStudioCode/Morobot/lib/morobot-arduino_esp-main/src/morobot.h:446-452 | Ready iff every servo is already marked reached or its two angle samples agree (checkIfMotorMoves is "the samples differ"). |
| Robot.CheckIfMotorMoves | Code/MQTT_morobot/VisualStudioCode/Morobot/lib/morobot-arduino_esp-main/src/morobot.h:168-174 | A servo counts as moving iff the angle read before the pause differs from the one read after it. |
| Robot.Settle | Code/MQTT_morobot/VisualStudioCode/Morobot/lib/morobot-arduino_esp-main/src/morobot.h:161-166 | The flags a wait leaves: busy when the robot waits after each move, idle when it does not; nothing else changes. |
| Robot.WaitUntilIsReady | Code/MQTT_morobot/VisualStudioCode/Morobot/lib/morobot-arduino_esp-main/src/morobot.h:161-166 | The wait stops at the first round in which no servo moves or more than TIMEOUT_DELAY (15000 ms) have passed. It answers Ready iff that round saw all servos still, and TimedOut only past the timeout. |
| MorobotP.New | Code/MQTT_morobot/VisualStudioCode/Morobot/lib/morobot-arduino_esp-main/src/morobot_p.cpp:9 | The constructor makes a three-servo robot with the limits (-360..360, 0..115, -100..28) and the last link length 26.27. |
| MorobotP.CheckIfAngleValid | Code/MQTT_morobot/VisualStudioCode/Morobot/lib/morobot-arduino_esp-main/src/morobot_p.cpp:33-53 | An angle is valid iff it is a number within its joint's inclusive limits and, for servos 1 and 2, the pair with the other servo's present (truncated) angle passes the difference check. A rejection invalidates the pose. |
| MorobotP.CheckIfAngleDiffValid | Code/MQTT_morobot/VisualStudioCode/Morobot/lib/morobot-arduino_esp-main/src/morobot_p.cpp:55-69 | The servo 1/2 pair (s1, s2) is accepted iff 20 <= 90 - s1 - s2 <= 135 (MIN_ANGLE_DIFF, MAX_ANGLE_DIFF). A rejection invalidates the pose. |
| MorobotP.Servo0OnlyLimits | Code/MQTT_morobot/VisualStudioCode/Morobot/lib/morobot-arduino_esp-main/src/morobot_p.cpp:33-53 | For servo 0 only the limit applies: a number is valid iff it lies in [-360, 360]; NaN is never valid. |
| MorobotP.CouplingSeesTruncatedAngle | Code/MQTT_morobot/VisualStudioCode/Morobot/lib/morobot-arduino_esp-main/src/morobot_p.cpp:44-49 | The coupling check sees the candidate after truncation to `long`: 75.9 is judged as 75, although the real pair (75.9, -5) is outside the allowed band. |
| MorobotP.CalculateAngles | Code/MQTT_morobot/VisualStudioCode/Morobot/lib/morobot-arduino_esp-main/src/morobot_p.cpp:84-117 | Succeeds iff all three solver angles pass the check, in order, against the present readings. On success exactly the three goal slots are stored. On failure nothing but the pose flag changes. |
| MorobotP.StoredGoalsNeedNotBeCoupled | Code/MQTT_morobot/VisualStudioCode/Morobot/lib/morobot-arduino_esp-main/src/morobot_p.cpp:106-116 | The goals are each checked against the present angles, not against each other, so an accepted triple can violate the coupling band. |
| MorobotP.SetTCPoffset | Code/MQTT_morobot/VisualStudioCode/Morobot/lib/morobot-arduino_esp-main/src/morobot_p.cpp:20-31 | The x offset is added to the last link length, the stored offset keeps x and z with y forced to 0, and the pose becomes invalid. |
| MorobotP.SetTCPoffsetAccumulates | Code/MQTT_morobot/VisualStudioCode/Morobot/lib/morobot-arduino_esp-main/src/morobot_p.cpp:23 | Calling setTCPoffset twice with the same x lengthens the link by 2x, so the call is not idempotent when x is not 0. |
| MorobotP.UpdateTCPpose | Code/MQTT_morobot/VisualStudioCode/Morobot/lib/morobot-arduino_esp-main/src/morobot_p.cpp:119-151 | A valid pose is left alone. Otherwise the robot waits, the solver's position is shifted back by the offsets, the orientation is (0, 0, servo 0's angle), and the pose is valid. |
| MorobotP.UpdateTCPposeIdempotent | Code/MQTT_morobot/VisualStudioCode/Morobot/lib/morobot-arduino_esp-main/src/morobot_p.cpp:120 | A second update right after the first changes nothing. |
| MorobotP.GetType | Code/MQTT_morobot/VisualStudioCode/Morobot/lib/morobot-arduino_esp-main/src/morobot_p.cpp:79-81 | The type string is "morobot_p". |
| Morobot2d.New | Code/MQTT_morobot/VisualStudioCode/Morobot/lib/morobot-arduino_esp-main/src/morobot_2d.h:28 | The constructor makes a two-servo robot and copies its own limit table into the base class. |
| Morobot2d.LimitTable | Code/MQTT_morobot/VisualStudioCode/Morobot/lib/morobot-arduino_esp-main/src/morobot_2d.h:76 | The limits are (-110, 135), (-72, 24) and (0, 0), each with lower <= upper. |
| Morobot2d.CheckIfAngleValid | Code/MQTT_morobot/VisualStudioCode/Morobot/lib/morobot-arduino_esp-main/src/morobot_2d.h:39-46 | An angle is valid iff it is a number within its joint's inclusive limits; a rejection invalidates the pose. |
| Morobot2d.LimitsInclusive | Code/MQTT_morobot/VisualStudioCode/Morobot/lib/morobot-arduino_esp-main/src/morobot_2d.h:39-46 | Both limits themselves are valid; one degree beyond either is not. |
| Morobot2d.SetTCPoffset | Code/MQTT_morobot/VisualStudioCode/Morobot/lib/morobot-arduino_esp-main/src/morobot_2d.h:30-37 | All three offsets are stored as given, the link lengths are unchanged, and the pose becomes invalid. |
| Morobot2d.CalculateAngles | Code/MQTT_morobot/VisualStudioCode/Morobot/lib/morobot-arduino_esp-main/src/morobot_2d.h:57-66 | Succeeds iff both solver angles are valid. On success exactly goal slots 0 and 1 are stored. On failure only the pose flag changes. |
| Morobot2d.UpdateTCPpose | Code/MQTT_morobot/VisualStudioCode/Morobot/lib/morobot-arduino_esp-main/src/morobot_2d.h:68-72 | A valid pose is left alone. Otherwise, after the wait, x is the solver's x plus the TCP offset and X_DEF_OFFSET (40.96), y is the TCP offset plus Y_DEF_OFFSET (74.24), z is the solver's z plus the TCP offset, Z_DEF_OFFSET_BOTTOM (22) and Z_DEF_OFFSET_TOP (16.9), the orientation is 0, and the pose is valid. |
| Morobot2d.GetType | Code/MQTT_morobot/VisualStudioCode/Morobot/lib/morobot-arduino_esp-main/src/morobot_2d.h:48-54 | The type string is "morobot_2d". |
| Motion.CheckIfAngleValid | Code/MQTT_morobot/VisualStudioCode/Morobot/lib/morobot-arduino_esp-main/src/morobot.h:124-131 | The virtual check answers exactly the geometry's validity predicate and invalidates the pose on rejection. |
| Motion.TruncKeepsValid | Code/MQTT_morobot/VisualStudioCode/Morobot/lib/morobot-arduino_esp-main/src/morobot.h:327-336 | A float goal that passed the check stays valid when it is truncated to the `long` that moveToPose sends. |
| Motion.CalculateAngles | Code/MQTT_morobot/VisualStudioCode/Morobot/lib/morobot-arduino_esp-main/src/morobot.h:394-404 | Succeeds iff every candidate of the robot's geometry is valid. On success exactly its servos' goals are stored. On failure only the pose flag changes. |
| Motion.UpdateTCPpose | Code/MQTT_morobot/VisualStudioCode/Morobot/lib/morobot-arduino_esp-main/src/morobot.h:406-411 | Afterwards the pose is valid. It is recomputed, after a wait, only if it was invalid. |
| Motion.SetTCPoffset | Code/MQTT_morobot/VisualStudioCode/Morobot/lib/morobot-arduino_esp-main/src/morobot.h:114-122 | The geometry's offset is stored, the pose becomes invalid, and nothing but the geometry and the pose flag changes. |
| Motion.MoveJoint | Code/MQTT_morobot/VisualStudioCode/Morobot/lib/morobot-arduino_esp-main/src/morobot.h:247-308 | One moveTo/moveBy is sent to bus id servo+1 iff validity is not asked for or the goal (absolute, or present + delta) is valid. The pose is invalid afterwards either way. |
| Motion.MoveToAngle | Code/MQTT_morobot/VisualStudioCode/Morobot/lib/morobot-arduino_esp-main/src/morobot.h:247-253 | At the default speed, the absolute move is sent iff the angle is valid; only the log and the pose flag change. |
| Motion.MoveToAngleAt | Code/MQTT_morobot/VisualStudioCode/Morobot/lib/morobot-arduino_esp-main/src/morobot.h:255-263 | At the given speed, the absolute move is sent iff the check is skipped or passes; the default speed is unchanged. |
| Motion.MoveAngle | Code/MQTT_morobot/VisualStudioCode/Morobot/lib/morobot-arduino_esp-main/src/morobot.h:292-298 | At the default speed, a relative move is sent iff the present angle plus the delta is valid. |
| Motion.MoveAngleAt | Code/MQTT_morobot/VisualStudioCode/Morobot/lib/morobot-arduino_esp-main/src/morobot.h:300-308 | At the given speed, a relative move is sent iff the check is skipped or the resulting goal is valid; the default speed is unchanged. |
| Motion.RelativeMoveChecksGoal | Code/MQTT_morobot/VisualStudioCode/Morobot/lib/morobot-arduino_esp-main/src/morobot.h:292-308 | A relative move checks the goal, not the delta: on morobot-2d, a delta of 20 from 10 is refused although 20 alone is valid. |
| Motion.MoveEach | Code/MQTT_morobot/VisualStudioCode/Morobot/lib/morobot-arduino_esp-main/src/morobot.h:265-325 | Looping over servos i.. appends exactly the accepted commands of those servos, in order, each servo checked against its own snapshot of readings. Any move invalidates the pose; nothing else changes. |
| Motion.AcceptedExactly | Code/MQTT_morobot/VisualStudioCode/Morobot/lib/morobot-arduino_esp-main/src/morobot.h:265-290 | A servo's command is among those sent iff its goal passes the rule against the snapshot taken when that servo is checked. On morobot-p that snapshot may already show an earlier servo's new angle. |
| Motion.AcceptedAll | Code/MQTT_morobot/VisualStudioCode/Morobot/lib/morobot-arduino_esp-main/src/morobot.h:327-336 | When every goal is valid against its own snapshot, every servo gets exactly one command, in servo order. |
| Motion.MoveToAngles | Code/MQTT_morobot/VisualStudioCode/Morobot/lib/morobot-arduino_esp-main/src/morobot.h:265-271 | The log grows by the accepted absolute moves at the default speed, the pose is invalid, and the flags are as a wait leaves them. |
| Motion.MoveToAnglesSendsExactlyValid | Code/MQTT_morobot/VisualStudioCode/Morobot/lib/morobot-arduino_esp-main/src/morobot.h:265-271 | Each servo's moveTo appears in the new part of the log iff its angle is valid against that servo's snapshot. |
| Motion.CouplingSeesEarlierMove | Code/MQTT_morobot/VisualStudioCode/Morobot/lib/morobot-arduino_esp-main/src/morobot_p.cpp:44-50 | On morobot-p, moveToAngles([0, 60, 28]) sends servo 2 its goal when servo 1 still reads 30 at that check, and drops it when servo 1 already reads its new goal 60. |
| Motion.MoveToAnglesAt | Code/MQTT_morobot/VisualStudioCode/Morobot/lib/morobot-arduino_esp-main/src/morobot.h:273-280 | The same as moveToAngles, at the given speed, leaving the default speed unchanged. |
| Motion.MoveToAngles3 | Code/MQTT_morobot/VisualStudioCode/Morobot/lib/morobot-arduino_esp-main/src/morobot.h:282-290 | The three-argument form is moveToAngles of the array [phi0, phi1, phi2]. |
| Motion.MoveAngles | Code/MQTT_morobot/VisualStudioCode/Morobot/lib/morobot-arduino_esp-main/src/morobot.h:310-316 | The log grows by the accepted relative moves at the default speed, the pose is invalid, and the flags are as a wait leaves them. |
| Motion.MoveAnglesSendsExactlyValid | Code/MQTT_morobot/VisualStudioCode/Morobot/lib/morobot-arduino_esp-main/src/morobot.h:310-316 | Each servo's moveBy appears iff its reading plus its delta is valid against that servo's snapshot. |
| Motion.MoveAnglesAt | Code/MQTT_morobot/VisualStudioCode/Morobot/lib/morobot-arduino_esp-main/src/morobot.h:318-325 | The same as moveAngles, at the given speed, leaving the default speed unchanged. |
| Motion.PartialMoveIsKept | Code/MQTT_morobot/VisualStudioCode/Morobot/lib/morobot-arduino_esp-main/src/morobot.h:265-271 | A multi-joint move is not all-or-nothing: on morobot-2d, [0, 100] moves servo 0 and drops servo 1. |
| Motion.MoveToPose | Code/MQTT_morobot/VisualStudioCode/Morobot/lib/morobot-arduino_esp-main/src/morobot.h:327-336 | Succeeds iff every candidate angle is valid against calculateAngles' snapshot. On failure nothing is sent and the pose is invalid. On success the candidates become the goal angles, each servo's moveTo of its truncated goal is sent iff it passes the re-check against that servo's own snapshot, in servo order, and the stored pose is the target whatever the re-checks refused. |
| Motion.PoseMoveSendsAll | Code/MQTT_morobot/VisualStudioCode/Morobot/lib/morobot-arduino_esp-main/src/morobot.h:327-336 | When no servo's snapshot has changed the coupling readings since calculateAngles, every servo of a successful pose move gets exactly one moveTo of its truncated goal, in order. |
| Motion.PoseMoveSendsExactlyValid | Code/MQTT_morobot/VisualStudioCode/Morobot/lib/morobot-arduino_esp-main/src/morobot.h:327-336 | After a successful calculateAngles, servo j's moveTo of its truncated goal is sent iff that goal passes the rule against servo j's snapshot. |
| Motion.PoseMoveMayDropServo | Code/MQTT_morobot/VisualStudioCode/Morobot/lib/morobot-arduino_esp-main/src/morobot.h:327-336 | On morobot-p a pose move can answer true and record the target while servo 2 is never sent its goal: candidates (0, 60, 28) pass with servo 1 at 30, but the re-check of servo 2 sees servo 1 at 60. |
| Motion.MoveXYZ | Code/MQTT_morobot/VisualStudioCode/Morobot/lib/morobot-arduino_esp-main/src/morobot.h:338-346 | The target is the updated present position plus the offsets. It succeeds iff every candidate for that target is valid. On success the candidates become the goal angles, the log grows by exactly the moves that pass their per-servo re-checks (as for moveToPose), and the target becomes the stored pose. On failure nothing is sent and the pose is invalid. |
| Motion.MoveInDirection | Code/MQTT_morobot/VisualStudioCode/Morobot/lib/morobot-arduino_esp-main/src/morobot.h:348-355 | The target is the present position moved along x, y or z; an unknown axis character moves nowhere. It succeeds iff every candidate for that target is valid. On success the goals, the log and the stored pose are as for moveToPose. On failure nothing is sent and the pose is invalid. |
| Motion.MoveInDirectionIsMoveXYZ | Code/MQTT_morobot/VisualStudioCode/Morobot/lib/morobot-arduino_esp-main/src/morobot.h:338-355 | moveInDirection is moveXYZ with the value on the named axis and 0 on the others. |
| Motion.SetSpeedRPM | Code/MQTT_morobot/VisualStudioCode/Morobot/lib/morobot-arduino_esp-main/src/morobot.h:106-112 | The default speed becomes the request clamped to the accepted range [1, 50]; nothing else changes. |
| Motion.SetSpeedRPMAsWritten | Code/MQTT_morobot/VisualStudioCode/Morobot/lib/morobot-arduino_esp-main/src/morobot.h:106-112 | The body as written: a request above 50 is capped at 50, but the lower guard tests a byte for being negative, so the result is only bounded above. |
| Motion.ZeroSpeedSlipsThrough | Code/MQTT_morobot/VisualStudioCode/Morobot/lib/morobot-arduino_esp-main/src/morobot.h:110 | As written, a request of 0 is stored as 0 where the corrected member stores 1; from 1 upwards the two agree. |
| Motion.ExplicitSpeedIsPerMove | Code/MQTT_morobot/VisualStudioCode/Morobot/lib/morobot-arduino_esp-main/src/morobot.h:106-112 | A move with an explicit speed sends that speed, and a later move without one uses the unchanged default again. |
| Motion.MoveHomeP | Code/MQTT_morobot/VisualStudioCode/Morobot/lib/morobot-arduino_esp-main/src/morobot_p.cpp:72-77 | Servo 0 is always sent to 0. Servo 1 is sent to 75 iff (75, servo 2's reading at servo 1's check) is in the coupling band, and servo 2 to -25 iff (servo 1's reading at servo 2's check, -25) is. The pose is invalid afterwards, and the robot is busy iff it waits after moves. |
| Motion.HomeIsCoupled | Code/MQTT_morobot/VisualStudioCode/Morobot/lib/morobot-arduino_esp-main/src/morobot_p.cpp:72-77 | The home pair (75, -25) lies in the coupling band; when servo 2 reads -25 at servo 1's check and servo 1 reads 75 at servo 2's check, all three moves are sent. |
| Motion.SetZero | Code/MQTT_morobot/VisualStudioCode/Morobot/lib/morobot-arduino_esp-main/src/morobot.h:94-98 | One setZero per servo, to bus ids 1..n in order, is appended to the log, and the pose becomes invalid. |
| Motion.SetBreaks | Code/MQTT_morobot/VisualStudioCode/Morobot/lib/morobot-arduino_esp-main/src/morobot.h:133-138 | One brake command per servo, in order, is appended; the pose stays as it is. |
| Motion.ReleaseBreaks | Code/MQTT_morobot/VisualStudioCode/Morobot/lib/morobot-arduino_esp-main/src/morobot.h:140-145 | One loose-brake command per servo, in order, is appended, and the pose becomes invalid. |
| Motion.TwoDLimitsCopied | Code/MQTT_morobot/VisualStudioCode/Morobot/lib/morobot-arduino_esp-main/src/morobot.h:226-231 | getJointLimit on a morobot-2d answers its own table: lower limit for false, upper for true. |
| Motion.GetJointLimit | Code/MQTT_morobot/VisualStudioCode/Morobot/lib/morobot-arduino_esp-main/src/morobot.h:226-231 | The robot's own table row for the servo: the lower limit for limitNum false, the upper for true. |
| Motion.GetNumSmartServos | Code/MQTT_morobot/VisualStudioCode/Morobot/lib/morobot-arduino_esp-main/src/morobot.h:240-244 | The count is the constructor's: 3 for morobot-p and 2 for morobot-2d, at most NUM_MAX_SERVOS (10). |
| Eef.NewBinaryEef | Code/MQTT_morobot/VisualStudioCode/Morobot/lib/morobot-arduino_esp-main/src/eef.h:232-236 | A new binary end-effector is off, on its pin, and has written nothing yet. |
| Eef.Activate | Code/MQTT_morobot/VisualStudioCode/Morobot/lib/morobot-arduino_esp-main/src/eef.h:238-241 | Afterwards it is activated and not deactivated, and the pin was driven high. |
| Eef.Deactivate | Code/MQTT_morobot/VisualStudioCode/Morobot/lib/morobot-arduino_esp-main/src/eef.h:243-246 | Afterwards it is deactivated and not activated, and the pin was driven low. |
| Eef.IsActivated | Code/MQTT_morobot/VisualStudioCode/Morobot/lib/morobot-arduino_esp-main/src/eef.h:248-252 | True iff the end-effector is latched on. |
| Eef.IsDeactivated | Code/MQTT_morobot/VisualStudioCode/Morobot/lib/morobot-arduino_esp-main/src/eef.h:254-258 | Always the negation of isActivated. |
| Eef.LatchFollowsLastCall | Code/MQTT_morobot/VisualStudioCode/Morobot/lib/morobot-arduino_esp-main/src/eef.h:248-261 | After any sequence of calls the state is the last call's, or the starting state if there was none. isDeactivated is always the negation of isActivated. |
| Eef.NewGripper | Code/MQTT_morobot/VisualStudioCode/Morobot/lib/morobot-arduino_esp-main/src/eef.h:58-62 | A new gripper is neither open nor closed and has written nothing to a servo. |
| Eef.SetParams | Code/MQTT_morobot/VisualStudioCode/Morobot/lib/morobot-arduino_esp-main/src/eef.h:86-95 | Stores the six parameters. The closing direction is positive iff the closed angle is above the open one. |
| Eef.SetParamsDefault | Code/MQTT_morobot/VisualStudioCode/Morobot/lib/morobot-arduino_esp-main/src/eef.h:95 | The defaulted arguments are gear ratio 7.87 and closing width 101.2. |
| Eef.SetSpeed2 | Code/MQTT_morobot/VisualStudioCode/Morobot/lib/morobot-arduino_esp-main/src/eef.h:103-108 | The opening and closing speeds are set independently; nothing else changes. |
| Eef.SetSpeed | Code/MQTT_morobot/VisualStudioCode/Morobot/lib/morobot-arduino_esp-main/src/eef.h:97-101 | One speed sets both the opening and the closing speed. |
| Eef.SetTCPoffset | Code/MQTT_morobot/VisualStudioCode/Morobot/lib/morobot-arduino_esp-main/src/eef.h:110-116 | The gripper keeps the offset and passes it to its robot, whose pose becomes invalid; nothing is sent. |
| Eef.FunctionNotImplementedError | Code/MQTT_morobot/VisualStudioCode/Morobot/lib/morobot-arduino_esp-main/src/eef.h:207-211 | The answer is false. |
| Eef.AngleValidIsInterval | Code/MQTT_morobot/VisualStudioCode/Morobot/lib/morobot-arduino_esp-main/src/eef.h:194-199 | The valid motor angles are exactly the closed interval between the close and open limits, oriented by the closing direction. |
| Eef.FinishRound | Code/MQTT_morobot/VisualStudioCode/Morobot/lib/morobot-arduino_esp-main/src/eef.h:201-205 | The wait stops at the first round from i on that ends it (servo still or timeout). |
| Eef.WaitUntilFinished | Code/MQTT_morobot/VisualStudioCode/Morobot/lib/morobot-arduino_esp-main/src/eef.h:201-205 | The answer is true iff the stopping round saw the servo still. The stored angle is that round's reading. |
| Eef.StillServoFinishes | Code/MQTT_morobot/VisualStudioCode/Morobot/lib/morobot-arduino_esp-main/src/eef.h:201-205 | A servo still in the first round ends the wait with success. |
| Eef.SweepWrites | Code/MQTT_morobot/VisualStudioCode/Morobot/lib/morobot-arduino_esp-main/src/eef.h:136-142 | The plain servo is written one-degree steps strictly between the start and the goal (the goal included when reached exactly), toward the goal. The last write is within one degree of it. |
| Eef.ServoSweep | Code/MQTT_morobot/VisualStudioCode/Morobot/lib/morobot-arduino_esp-main/src/eef.h:136-142 | The stepping loop writes exactly the sweep. |
| Eef.ServoAngleOf | Code/MQTT_morobot/VisualStudioCode/Morobot/lib/morobot-arduino_esp-main/src/eef.h:136-142 | The corrected half of a finding: the intended inverse of the motor-degree conversion, so converting its result again gives the motor angle. The moves of the model store the as-written angle instead. |
| Eef.ServoAngleAsWritten | Code/MQTT_morobot/VisualStudioCode/Morobot/lib/morobot-arduino_esp-main/src/eef.h:136-142 | The stored angle as written inverts `(angle + degClosed) * gear`, not the conversion `angle * gear + degClosed` that the move applies. |
| Eef.ServoAngleAsWrittenIsOff | Code/MQTT_morobot/VisualStudioCode/Morobot/lib/morobot-arduino_esp-main/src/eef.h:136-142 | The as-written angle is right for gear 1, and off for gear 2, closed 65, angle 10, where it stores -22.5. |
| Eef.ServoAngleRoundTrip | Code/MQTT_morobot/VisualStudioCode/Morobot/lib/morobot-arduino_esp-main/src/eef.h:136-142 | The corrected conversion ServoAngleOf converts the motor angle back to the angle asked for. |
| Eef.SmartMove | Code/MQTT_morobot/VisualStudioCode/Morobot/lib/morobot-arduino_esp-main/src/eef.h:136-142 | An invalid angle changes nothing and answers false. A valid one sends one moveTo at the gripper's bus id. A move of more than 10 degrees from the reading before answers the wait's result and leaves the open/closed flags alone; a shorter one answers true and clears both flags. |
| Eef.ServoMove | Code/MQTT_morobot/VisualStudioCode/Morobot/lib/morobot-arduino_esp-main/src/eef.h:136-142 | The real angle is converted to motor degrees and checked. If valid, the servo is swept there one degree at a time and the firmware's `motor / gear - degClosed` is stored; that is the angle asked for when the gear ratio is 1. |
| Eef.MoveToAngle | Code/MQTT_morobot/VisualStudioCode/Morobot/lib/morobot-arduino_esp-main/src/eef.h:136-142 | A success implies the motor angle was valid, and an invalid angle changes nothing. Each gripper type takes its own branch. |
| Eef.GetCurrentOpeningAngle | Code/MQTT_morobot/VisualStudioCode/Morobot/lib/morobot-arduino_esp-main/src/eef.h:167-171 | A smart servo is read and the reading kept; a plain servo answers its stored angle. |
| Eef.Close | Code/MQTT_morobot/VisualStudioCode/Morobot/lib/morobot-arduino_esp-main/src/eef.h:118-121 | Moves to the closed angle (0 for a plain servo) at the closing speed. Afterwards the gripper is closed and not open. |
| Eef.IsClosed | Code/MQTT_morobot/VisualStudioCode/Morobot/lib/morobot-arduino_esp-main/src/eef.h:179-183 | Answers the closed flag that the last close, open or move left, not a reading of the servo. |
| Eef.IsOpened | Code/MQTT_morobot/VisualStudioCode/Morobot/lib/morobot-arduino_esp-main/src/eef.h:185-189 | Answers the opened flag that the last open, close or move left, not a reading of the servo. |
| Eef.Open | Code/MQTT_morobot/VisualStudioCode/Morobot/lib/morobot-arduino_esp-main/src/eef.h:123-126 | Moves to the open angle at the opening speed. Afterwards the gripper is open and not closed. |
| Eef.CloseReportsClosedWhenRefused | Code/MQTT_morobot/VisualStudioCode/Morobot/lib/morobot-arduino_esp-main/src/eef.h:179-183 | A closed angle outside the limits sends nothing, yet isClosed answers true. |
| Eef.CloseCommandsClosedAngle | Code/MQTT_morobot/VisualStudioCode/Morobot/lib/morobot-arduino_esp-main/src/eef.h:118-121 | A valid smart-servo close sends exactly one moveTo of the closed angle at the closing speed. |
| Eef.MoveAngle | Code/MQTT_morobot/VisualStudioCode/Morobot/lib/morobot-arduino_esp-main/src/eef.h:128-134 | A move to the current opening angle plus the increment; success implies that sum was valid. |
| Eef.MoveToWidth | Code/MQTT_morobot/VisualStudioCode/Morobot/lib/morobot-arduino_esp-main/src/eef.h:152-158 | The corrected half of a finding: a smart gripper moves to the width's motor angle and answers that move's result. A plain servo is refused. |
| Eef.MoveToWidthAsWritten | Code/MQTT_morobot/VisualStudioCode/Morobot/lib/morobot-arduino_esp-main/src/eef.h:152-158 | The body as written: a plain servo is refused, and for a smart gripper the bus and the gripper end as in the corrected member, but the answer is whatever value the missing return leaves. |
| Eef.MoveToWidthMayReportRefusedMove | Code/MQTT_morobot/VisualStudioCode/Morobot/lib/morobot-arduino_esp-main/src/eef.h:152-158 | A width whose motor angle is outside the limits sends nothing, yet as written it can be reported as reached; the corrected member answers false. |
| Eef.GetCurrentOpeningWidth | Code/MQTT_morobot/VisualStudioCode/Morobot/lib/morobot-arduino_esp-main/src/eef.h:173-177 | A smart gripper's width is never below the closed width. A plain servo answers 0 without a change. |
| Eef.WidthRoundTrip | Code/MQTT_morobot/VisualStudioCode/Morobot/lib/morobot-arduino_esp-main/src/eef.h:152-177 | With a positive gear ratio, the width read converts back, through moveToWidth's formula, to the magnitude of the angle read, signed by the closing direction. |
| Eef.MoveWidth | Code/MQTT_morobot/VisualStudioCode/Morobot/lib/morobot-arduino_esp-main/src/eef.h:144-150 | A smart gripper runs moveToWidth as written to the current width plus the increment: the move is sent and the answer is the unset return value. A plain servo is refused with no change. |
| Eef.Begin | Code/MQTT_morobot/VisualStudioCode/Morobot/lib/morobot-arduino_esp-main/src/eef.h:64-69 | The smart-servo gripper gets its defaults: closed 0, open -500, limits 0 and -550, closing direction positive. The robot's TCP offset becomes (0, 0, -38). |
| Eef.BeginTargetsValid | Code/MQTT_morobot/VisualStudioCode/Morobot/lib/morobot-arduino_esp-main/src/eef.h:64-69 | After begin() both targets are valid, and an angle is valid iff it lies in [-550, 0]. |
| Eef.BeginServo | Code/MQTT_morobot/VisualStudioCode/Morobot/lib/morobot-arduino_esp-main/src/eef.h:71-77 | From any gripper state, the plain-servo gripper gets its defaults: closed 65 and open 140 motor degrees, limits 50 and 155, gear 1, width offset 0, a negative closing direction, and TCP offset (0, 0, -18), also set on the robot. The opening then always succeeds and stores the opening angle 75. |
| Eef.BeginServoSweepsOpen | Code/MQTT_morobot/VisualStudioCode/Morobot/lib/morobot-arduino_esp-main/src/eef.h:71-77 | From a new gripper, begin(pin) writes 75 steps, 66..140, and stores the opening angle 75. |
| Eef.CloseToForce | Code/MQTT_morobot/VisualStudioCode/Morobot/lib/morobot-arduino_esp-main/src/eef.h:160-165 | A smart gripper steps 5 degrees in the closing direction each round until the current exceeds the limit or TIMEOUT_DELAY_GRIPPER (25000 ms) passes. It answers true iff the current stopped it. A plain servo is refused. |
| Eef.AutoCalibrate | Code/MQTT_morobot/VisualStudioCode/Morobot/lib/morobot-arduino_esp-main/src/eef.h:79-84 | It closes to force with the default limit 70. For a smart gripper, the closing stops at the first sample that grasps or times out, and calibration succeeds iff that sample grasped. On failure the log holds only the closing steps and the targets are unchanged. On success the servo is zeroed where it grasped, the open targets are set, the closing direction is kept and the gripper is closed. A plain servo is refused. |
| DistanceSensor.NewSensor | Code/MQTT_morobot/VisualStudioCode/Morobot/src/DistanceSensor.cpp:4-11 | The constructor stores the pins only. |
| DistanceSensor.WatchForObjects | Code/MQTT_morobot/VisualStudioCode/Morobot/src/DistanceSensor.cpp:13-30 | The new reading is stored. The flag is up afterwards iff it was up or the reading is more than 10 cm closer than the stored one. It is never lowered. |
| DistanceSensor.SetFlag | Code/MQTT_morobot/VisualStudioCode/Morobot/src/DistanceSensor.cpp:32-35 | Raises the flag and nothing else. |
| DistanceSensor.DisableFlag | Code/MQTT_morobot/VisualStudioCode/Morobot/src/DistanceSensor.cpp:37-40 | Lowers the flag and nothing else. |
| DistanceSensor.GetFlag | Code/MQTT_morobot/VisualStudioCode/Morobot/src/DistanceSensor.cpp:42-45 | Answers the drop flag as the sensor holds it. |
| DistanceSensor.FlagIsSticky | Code/MQTT_morobot/VisualStudioCode/Morobot/src/DistanceSensor.cpp:13-45 | Over any run of readings the flag ends up iff it started up or some reading fell more than 10 cm below its predecessor. The stored distance is the last reading. |
| DistanceSensor.ThresholdIsStrict | Code/MQTT_morobot/VisualStudioCode/Morobot/src/DistanceSensor.cpp:26 | A drop of exactly 10 cm does not raise the flag; 11 cm does. |
| Dispatch.Callback | Code/MQTT_morobot/VisualStudioCode/Morobot/src/main.cpp:129-143 | The topic is replaced and the payload appended to the message text, which the callback never clears. |
| Dispatch.Loop | Code/MQTT_morobot/VisualStudioCode/Morobot/src/main.cpp:41-81 | Each pass first resets the speed to 50 and ends with the sensor flag lowered. Every pass publishes the literal text "Temp: %d" on Fruitsystem/robot, retained iff the temperature read is not zero; only the object report, if any, follows it. The object report happens iff this pass's reading raised or kept the flag. The color topic is forgotten; other topics leave the state alone. |
| Dispatch.RipeIsServed | Code/MQTT_morobot/VisualStudioCode/Morobot/src/main.cpp:54-63 | A ripe message is consumed: move to (-45, 45, 0), wait, then publish "OnPosition" on Fruitsystem/robot. |
| Dispatch.UnripeIsServed | Code/MQTT_morobot/VisualStudioCode/Morobot/src/main.cpp:64-72 | An unripe message is consumed: move to (45, -45, 0), wait, then publish "OnPosition". |
| Dispatch.AtMostOneMove | Code/MQTT_morobot/VisualStudioCode/Morobot/src/main.cpp:54-73 | A pass moves the arm at most once, and moves it iff a ripe or unripe message is pending on the color topic. |
| Dispatch.UnrecognisedTokenConcatenates | Code/MQTT_morobot/VisualStudioCode/Morobot/src/main.cpp:54-73 | An unrecognised message on the color topic clears the topic but keeps the text, so the next payload is appended to it. |
| Dispatch.FirstPassReportsNothing | Code/MQTT_morobot/VisualStudioCode/Morobot/src/main.cpp:25 | With the zero-initialised global sensor, a first pass with a non-negative reading reports no object. |

## Left out

- The trigonometric formulas of the inverse and forward kinematics. They are parameters; only the handling of their results is modelled.
- Float rounding. All floats are exact reals, and NaN is a separate case.
- The implicit float-to-int conversion of `Servo.write`. The model logs the real value written.
- Serial prints, the `Dabble` remote control, WiFi and MQTT connection handling (`setup_wifi`, `reconnect`, `client.loop`).
- The temperature value at main.cpp:74. The call `getTemp()` omits the servo id that morobot.h:210 requires, so Dispatch.Loop takes the temperature of some servo as the parameter `temp`. Which servo is read is not modelled. `publish` formats nothing: the payload is the literal "Temp: %d", and the temperature only sets the retained flag.
- `Ripe`, `Unripe` and `String::toInt`. They are parameters of the loop.
- The sensor's pulse timing and its conversion to centimetres. The reading in whole centimetres is the input.
- The axis limits (`_axisLimits`, `getAxisLimit`). They are stored but never consulted by a move.
- The base-class `moveHome`, `begin(stream)` and `autoCalibrateLinearAxis`. Only morobot-p's own `moveHome` is modelled.
- The read-only getters that only forward a servo reading (`getActAngle`, `getActPosition`, `getActOrientation`, `getSpeed`, `getTemp`, `getVoltage`, `getCurrent`). Readings are the snapshots.
- The `morobot_s_rrp` arm that `main.cpp` instantiates, and the `morobot_3d` and `morobot_s_rrr` geometries. The application's calls on the arm are recorded as actions.
- Delays and timing: the servo sweep's per-degree delay, the 150 ms motion sample, and the 50 ms gripper sample.
- Robot.WaitUntilIsReady: the header says the wait sets the robot idle, but the code only calls setBusy before it polls and never marks a servo reached again. The model follows the code, so a waited robot stays busy.
- Robot.WaitUntilIsReady, Eef.WaitUntilFinished, Eef.CloseToForce and Eef.AutoCalibrate require that some round ends the wait or the closing. The real clock guarantees this; the model does not follow time.
- Eef.ServoMove, Eef.GetCurrentOpeningWidth and Eef.MoveWidth require a non-zero gear ratio. The firmware would divide by zero and store inf/NaN.
- Eef.WidthRoundTrip is stated only for a positive gear ratio. With a negative ratio the sign of the converted angle flips.
- Eef.Open keeps the plain-servo conversion `degOpen / gear - degClosed` as written. It also disagrees with the moveToAngle conversion whenever the gear ratio is not 1.
- Motion.MoveEach and the moves built on it take the per-servo snapshots as inputs. The model does not say how far a servo has moved by the time the next one is checked.
- Robot.NewRobot, Eef.NewGripper and DistanceSensor.NewSensor: members the constructors do not set are assumed zero, as for a global object. The application declares the arm and the sensor as globals (main.cpp:14 and main.cpp:24) but declares no gripper. The sensor's initial values are parameters.

## Findings

The moves of the model keep the firmware's behaviour. Eef.ServoMove stores the as-written angle, and Eef.MoveWidth answers like the as-written moveToWidth. The corrected members state what the code evidently meant.

One more defect has no row, because it has no behaviour to model as written. main.cpp:74 calls `morobot.getTemp()` with no argument, but morobot.h:210 declares `getTemp(uint8_t servoId)` without a default, so main.cpp does not compile as given. With an id supplied, the call would publish the format text "Temp: %d" unformatted, and the float temperature would become `publish`'s retained flag. Dispatch.Loop models that reading (not executed).

| source | as written | input that shows it | evidently intended | confidence | as-written member | corrected member |
|---|---|---|---|---|---|---|
| Code/MQTT_morobot/VisualStudioCode/Morobot _WithBuffer/lib/morobot-arduino_esp-main/src/morobot.cpp:154-161 | `if (speed < 0) _speedRPM = 1;` on a `uint8_t` can never fire | `setSpeedRPM(0)` stores 0 | speeds below 1 are raised to 1, as morobot.h:110 accepts only 1..50 | medium, not executed | Motion.SetSpeedRPMAsWritten | Motion.SetSpeedRPM |
| Code/MQTT_morobot/VisualStudioCode/Morobot _WithBuffer/lib/morobot-arduino_esp-main/src/eef.cpp:204-214 | the smart-servo branch of `moveToWidth` calls `moveToAngle` and falls off the end without `return` | any width on a smart gripper, e.g. one outside the limits, whose move is refused | return the result of `moveToAngle` | high, not executed | Eef.MoveToWidthAsWritten | Eef.MoveToWidth |
| Code/MQTT_morobot/VisualStudioCode/Morobot _WithBuffer/lib/morobot-arduino_esp-main/src/eef.cpp:171-192 | the plain-servo move converts `angle * gear + degClosed` to motor degrees but stores `motor / gear - degClosed` | gear 2, closed 65, angle 10: stored -22.5 | unclear: storing `(motor - degClosed) / gear` gives back 10, but the header calls the gear ratio real degrees per motor degree (eef.h:218) and `open()` at eef.cpp:153 converts with the stored form, so either the move's conversion or the store is off | low, not executed | Eef.ServoAngleAsWritten | Eef.ServoAngleOf |
