/**
 The ultrasonic distance sensor of the application (DistanceSensor.cpp): a
 sticky flag raised when a new reading is more than 10 cm closer than the
 one before, and lowered only on request. The echo measurement itself
 (pulse timing and its conversion to centimetres) is the input `reading`.
 */
module DistanceSensor {

  /** How much closer (cm) a reading must be than the previous one to raise the flag. */
  const DROP_THRESHOLD: int := 10

  datatype Sensor = Sensor(echoPin: int, trigPin: int, distance: int, flag: bool)

  /**
   The constructor stores the pins only; `distance` and `flag` keep whatever
   value the storage held, so they are parameters here.
   */
  function NewSensor(echoPin: int, trigPin: int, distance0: int, flag0: bool): (s: Sensor)
    ensures s.echoPin == echoPin && s.trigPin == trigPin
    ensures s.distance == distance0 && s.flag == flag0
  {
    Sensor(echoPin, trigPin, distance0, flag0)
  }

  /** The new reading is more than the threshold closer than the stored one. */
  predicate Drop(prev: int, reading: int)
  {
    reading < prev - DROP_THRESHOLD
  }

  /**
   watchForObjects: stores the new reading and raises the flag when it is
   more than 10 cm closer than the reading stored before the call; it never
   lowers the flag.
   */
  function WatchForObjects(s: Sensor, reading: int): (s': Sensor)
    ensures s'.distance == reading
    ensures s'.flag <==> s.flag || reading + DROP_THRESHOLD < s.distance
    ensures s.flag ==> s'.flag
    ensures s'.echoPin == s.echoPin && s'.trigPin == s.trigPin
  {
    var prevDistance := s.distance;
    var s1 := s.(distance := reading);
    if reading < prevDistance - DROP_THRESHOLD then SetFlag(s1) else s1
  }

  /** setFlag: raises the flag and changes nothing else. */
  function SetFlag(s: Sensor): (s': Sensor)
    ensures GetFlag(s') && s' == s.(flag := true)
  {
    s.(flag := true)
  }

  /** disableFlag: lowers the flag and changes nothing else. */
  function DisableFlag(s: Sensor): (s': Sensor)
    ensures !GetFlag(s') && s' == s.(flag := false)
  {
    s.(flag := false)
  }

  /** getFlag: the drop flag as the sensor holds it; reading it does not lower it. */
  function GetFlag(s: Sensor): (f: bool)
    ensures f <==> s.flag
  {
    s.flag
  }

  /** Feeds the readings to watchForObjects one after the other. */
  function WatchAll(s: Sensor, readings: seq<int>): Sensor
    decreases |readings|
  {
    if readings == [] then s else WatchAll(WatchForObjects(s, readings[0]), readings[1..])
  }

  /** Some reading drops by more than the threshold below the one before it (the first compared with `prev`). */
  predicate AnyDrop(prev: int, readings: seq<int>)
    decreases |readings|
  {
    readings != [] && (Drop(prev, readings[0]) || AnyDrop(readings[0], readings[1..]))
  }

  /**
   The latch over any run of readings: afterwards the flag is up iff it was
   up before or some reading dropped by more than 10 cm below its
   predecessor; the stored distance is the last reading.
   */
  lemma {:induction false} FlagIsSticky(s: Sensor, readings: seq<int>)
    ensures GetFlag(WatchAll(s, readings)) <==> GetFlag(s) || AnyDrop(s.distance, readings)
    ensures readings != [] ==> WatchAll(s, readings).distance == readings[|readings| - 1]
    ensures readings == [] ==> WatchAll(s, readings) == s
    decreases |readings|
  {
    if readings != [] {
      var s1 := WatchForObjects(s, readings[0]);
      FlagIsSticky(s1, readings[1..]);
      if |readings| > 1 {
        assert readings[1..][|readings[1..]| - 1] == readings[|readings| - 1];
      }
    }
  }

  /** A drop of exactly 10 cm is not enough; 11 cm is. */
  lemma ThresholdIsStrict(s: Sensor)
    requires !s.flag
    ensures !GetFlag(WatchForObjects(s, s.distance - 10))
    ensures GetFlag(WatchForObjects(s, s.distance - 11))
  {
  }
}
