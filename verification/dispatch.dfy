/**
 The application's event handling (main.cpp): the MQTT callback and the
 main loop, a state machine over the two globals `Topic` and `messageTemp`
 and the distance sensor. The calls the loop makes on the arm and on the
 MQTT client are returned as a list of actions; `toInt`, the values of
 `Ripe` and `Unripe`, and the servo temperature the loop reads are
 parameters.
 */
module Dispatch {
  import opened DistanceSensor

  const COLOR_TOPIC: string := "Fruitsystem/color"
  const ROBOT_TOPIC: string := "Fruitsystem/robot"
  const ON_POSITION: string := "OnPosition"
  /** The loop's `xMove` and `yMove`, in degrees. */
  const MOVE_ANGLE: int := 45
  const LOOP_SPEED_RPM: int := 50
  /** The loop's temperature message: the format text itself, never filled in with the temperature. */
  const TEMP_TEXT: string := "Temp: %d"

  /** A call the loop makes on the arm, on the MQTT client or on the serial monitor. */
  datatype Action =
    | SetSpeedRPM(rpm: int)
    | MoveToAngles(phi0: int, phi1: int, phi2: int)
    | WaitUntilIsReady
    | Publish(topic: string, payload: string, retained: bool)
    | ReportObject

  /** The globals `Topic` and `messageTemp`, and the sensor. */
  datatype App = App(topic: string, messageTemp: string, sensor: Sensor)

  /**
   callback: the topic replaces `Topic`, and every payload byte is appended
   to `messageTemp`, which the callback never clears.
   */
  function Callback(a: App, topic: string, payload: seq<char>): (a': App)
    ensures a'.topic == topic
    ensures a'.messageTemp == a.messageTemp + payload
    ensures a'.sensor == a.sensor
  {
    a.(topic := topic, messageTemp := a.messageTemp + payload)
  }

  /** The actions of a recognised color message: move to the sorting pose, wait, report. */
  function Serve(phi0: int, phi1: int): seq<Action>
  {
    [MoveToAngles(phi0, phi1, 0), WaitUntilIsReady, Publish(ROBOT_TOPIC, ON_POSITION, false)]
  }

  /**
   One pass of loop: the sensor is read, the default speed is reset to 50,
   a color message is served (ripe before unripe) and the topic forgotten,
   the temperature text is published (the temperature itself lands in the
   retained flag: set iff it is not zero), and a raised sensor flag is
   reported and lowered.
   */
  function Loop(a: App, reading: int, toInt: string -> int, ripe: int, unripe: int, temp: real): (r: (App, seq<Action>))
    ensures |r.1| > 0 && r.1[0] == SetSpeedRPM(LOOP_SPEED_RPM)
    ensures var tail := if GetFlag(WatchForObjects(a.sensor, reading)) then [ReportObject] else [];
            && |r.1| >= 2 + |tail|
            && r.1[|r.1| - |tail| - 1] == Publish(ROBOT_TOPIC, TEMP_TEXT, temp != 0.0)
            && r.1[|r.1| - |tail|..] == tail
    ensures !GetFlag(r.0.sensor) && r.0.sensor.distance == reading
    ensures (ReportObject in r.1) <==> GetFlag(WatchForObjects(a.sensor, reading))
    ensures a.topic != COLOR_TOPIC ==> r.0.topic == a.topic && r.0.messageTemp == a.messageTemp
    ensures a.topic == COLOR_TOPIC ==> r.0.topic == ""
  {
    var s1 := WatchForObjects(a.sensor, reading);
    var acts := [SetSpeedRPM(LOOP_SPEED_RPM)];
    var (a1, served) :=
      if a.topic == COLOR_TOPIC then
        if toInt(a.messageTemp) == ripe then (a.(messageTemp := "", topic := ""), Serve(-MOVE_ANGLE, MOVE_ANGLE))
        else if toInt(a.messageTemp) == unripe then (a.(messageTemp := "", topic := ""), Serve(MOVE_ANGLE, -MOVE_ANGLE))
        else (a.(topic := ""), [])
      else (a, []);
    var report := if GetFlag(s1) then [ReportObject] else [];
    (a1.(sensor := DisableFlag(s1)), acts + served + [Publish(ROBOT_TOPIC, TEMP_TEXT, temp != 0.0)] + report)
  }

  /** The moves a list of actions commands. */
  function Moves(acts: seq<Action>): nat
  {
    if acts == [] then 0 else (if acts[0].MoveToAngles? then 1 else 0) + Moves(acts[1..])
  }

  lemma {:induction false} MovesConcat(x: seq<Action>, y: seq<Action>)
    ensures Moves(x + y) == Moves(x) + Moves(y)
    decreases |x|
  {
    if x == [] {
      assert x + y == y;
    } else {
      assert (x + y)[0] == x[0];
      assert (x + y)[1..] == x[1..] + y;
      MovesConcat(x[1..], y);
    }
  }

  lemma ServeMovesOnce(phi0: int, phi1: int)
    ensures Moves(Serve(phi0, phi1)) == 1
  {
    var s := Serve(phi0, phi1);
    assert s[1..] == [WaitUntilIsReady, Publish(ROBOT_TOPIC, ON_POSITION, false)];
    assert s[1..][1..] == [Publish(ROBOT_TOPIC, ON_POSITION, false)];
    assert s[1..][1..][1..] == [];
    assert Moves(s[1..][1..]) == 0;
    assert Moves(s[1..]) == 0;
  }

  /** A ripe message on the color topic: message and topic cleared, moved to (-45, 45, 0), waited, and reported on position. */
  lemma RipeIsServed(a: App, reading: int, toInt: string -> int, ripe: int, unripe: int, temp: real)
    requires a.topic == COLOR_TOPIC && toInt(a.messageTemp) == ripe
    ensures var r := Loop(a, reading, toInt, ripe, unripe, temp);
            && r.0.topic == "" && r.0.messageTemp == ""
            && r.1[1..4] == [MoveToAngles(-45, 45, 0), WaitUntilIsReady, Publish("Fruitsystem/robot", "OnPosition", false)]
  {
  }

  /** An unripe message: message and topic cleared, moved to (45, -45, 0), waited, and reported on position. */
  lemma UnripeIsServed(a: App, reading: int, toInt: string -> int, ripe: int, unripe: int, temp: real)
    requires a.topic == COLOR_TOPIC && toInt(a.messageTemp) == unripe && unripe != ripe
    ensures var r := Loop(a, reading, toInt, ripe, unripe, temp);
            && r.0.topic == "" && r.0.messageTemp == ""
            && r.1[1..4] == [MoveToAngles(45, -45, 0), WaitUntilIsReady, Publish("Fruitsystem/robot", "OnPosition", false)]
  {
  }

  /**
   A pass of the loop moves the arm at most once, and only for a recognised
   message on the color topic; any other topic causes no move.
   */
  lemma AtMostOneMove(a: App, reading: int, toInt: string -> int, ripe: int, unripe: int, temp: real)
    ensures var r := Loop(a, reading, toInt, ripe, unripe, temp);
            && Moves(r.1) <= 1
            && (Moves(r.1) == 1 <==> a.topic == COLOR_TOPIC && (toInt(a.messageTemp) == ripe || toInt(a.messageTemp) == unripe))
  {
    var s1 := WatchForObjects(a.sensor, reading);
    var report := if GetFlag(s1) then [ReportObject] else [];
    var served :=
      if a.topic == COLOR_TOPIC then
        if toInt(a.messageTemp) == ripe then Serve(-MOVE_ANGLE, MOVE_ANGLE)
        else if toInt(a.messageTemp) == unripe then Serve(MOVE_ANGLE, -MOVE_ANGLE)
        else []
      else [];
    var temperature := [Publish(ROBOT_TOPIC, TEMP_TEXT, temp != 0.0)];
    MovesConcat([SetSpeedRPM(LOOP_SPEED_RPM)] + served + temperature, report);
    MovesConcat([SetSpeedRPM(LOOP_SPEED_RPM)] + served, temperature);
    MovesConcat([SetSpeedRPM(LOOP_SPEED_RPM)], served);
    assert Moves(report) == 0;
    assert Moves(temperature) == 0;
    assert Moves([SetSpeedRPM(LOOP_SPEED_RPM)]) == 0;
    ServeMovesOnce(-MOVE_ANGLE, MOVE_ANGLE);
    ServeMovesOnce(MOVE_ANGLE, -MOVE_ANGLE);
  }

  /**
   A message on the color topic that is neither ripe nor unripe is not
   consumed: the topic is cleared but the text stays, so the next payload
   is appended to it.
   */
  lemma UnrecognisedTokenConcatenates(a: App, reading: int, toInt: string -> int, ripe: int, unripe: int, temp: real,
                                      topic: string, payload: seq<char>)
    requires a.topic == COLOR_TOPIC && toInt(a.messageTemp) != ripe && toInt(a.messageTemp) != unripe
    ensures var r := Loop(a, reading, toInt, ripe, unripe, temp);
            && r.0.topic == "" && r.0.messageTemp == a.messageTemp
            && Callback(r.0, topic, payload).messageTemp == a.messageTemp + payload
  {
  }

  /** With the global sensor zero-initialised, the first pass sees a drop only below -10 cm, so it reports nothing. */
  lemma FirstPassReportsNothing(reading: int, toInt: string -> int, ripe: int, unripe: int, temp: real)
    requires reading >= 0
    ensures var a := App("", "", NewSensor(4, 2, 0, false));
            ReportObject !in Loop(a, reading, toInt, ripe, unripe, temp).1
  {
  }
}
