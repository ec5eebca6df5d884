/**
 * One telemetry cycle without its I/O: each measured echo time becomes a
 * distance, each distance a presence observation for its sensor, and the
 * observations of one cycle form the message that is sent when it is not empty.
 */
module Telemetry {
  import opened Wrappers
  import opened Sensors

  /** Speed of sound in air, in meters per millisecond. */
  const SpeedOfSound: real := 0.343

  /** The distance in meters to the reflecting object for a measured time of
      `millisecsTaken`: the sound travels there and back, hence the halving.
      In seconds this is the familiar `seconds * 343 / 2`. */
  function Distance(millisecsTaken: real): (distance: real)
    ensures distance == (millisecsTaken / 1000.0) * 343.0 / 2.0
    ensures millisecsTaken >= 0.0 ==> distance >= 0.0
  {
    (millisecsTaken * SpeedOfSound) / 2.0
  }

  /** The measured time, in milliseconds, that corresponds to `distance`. */
  function EchoTime(distance: real): real
  {
    distance * 2.0 / SpeedOfSound
  }

  /** Distance and echo time are inverse to each other. */
  lemma DistanceEchoTimeInverse(millisecsTaken: real, distance: real)
    ensures Distance(EchoTime(distance)) == distance
    ensures EchoTime(Distance(millisecsTaken)) == millisecsTaken
  {
  }

  lemma DistanceAtZero()
    ensures Distance(0.0) == 0.0
  {
  }

  /** A longer echo time never means a shorter distance, and a strictly longer
      one always means a strictly longer distance. */
  lemma DistanceMonotonic(t1: real, t2: real)
    ensures t1 <= t2 ==> Distance(t1) <= Distance(t2)
    ensures t1 < t2 ==> Distance(t1) < Distance(t2)
  {
  }

  /** One reported observation. The module fills in only the sensor identifier
      and the boolean value; the numeric and string values stay null. */
  datatype Observation = Observation(
    numericValue: Option<real>,
    stringValue: Option<string>,
    booleanValue: Option<bool>,
    sensorId: string)

  /** The message sent per cycle; the device identifier is never set. */
  datatype RecEdgeMessage = RecEdgeMessage(deviceId: Option<string>, observations: seq<Observation>)
  {
    function Format(): string { "rec3.2" }
  }

  /** The observations of one cycle, for the sensors in list order, each paired
      with the time measured for it. */
  function Observations(sensors: seq<UltrasonicSensor>, millisecsTaken: seq<real>): (observations: seq<Observation>)
    requires |millisecsTaken| == |sensors|
    ensures |observations| == |sensors|
    ensures forall i :: 0 <= i < |sensors| ==>
      && observations[i].sensorId == sensors[i].sensorId
      && observations[i].booleanValue == Some(Distance(millisecsTaken[i]) < sensors[i].sensingDistance)
      && observations[i].numericValue == None
      && observations[i].stringValue == None
  {
    if sensors == [] then []
    else
      var n := |sensors| - 1;
      Observations(sensors[..n], millisecsTaken[..n])
        + [Observation(None, None, Some(Distance(millisecsTaken[n]) < sensors[n].sensingDistance), sensors[n].sensorId)]
  }

  /** An object exactly at a sensor's threshold is not reported: the
      comparison with the sensing distance is strict. */
  lemma PresenceAtThreshold(sensors: seq<UltrasonicSensor>, millisecsTaken: seq<real>, i: nat)
    requires |millisecsTaken| == |sensors| && i < |sensors|
    requires Distance(millisecsTaken[i]) == sensors[i].sensingDistance
    ensures Observations(sensors, millisecsTaken)[i].booleanValue == Some(false)
  {
  }

  /** The threshold read as a time: a sensor reports a detection exactly when
      its measured time is shorter than the echo time of its sensing distance. */
  lemma PresenceByEchoTime(sensors: seq<UltrasonicSensor>, millisecsTaken: seq<real>, i: nat)
    requires |millisecsTaken| == |sensors| && i < |sensors|
    ensures Observations(sensors, millisecsTaken)[i].booleanValue == Some(true)
        <==> millisecsTaken[i] < EchoTime(sensors[i].sensingDistance)
  {
  }

  /** One sensor with a threshold of 0.5 m: an echo after 2 ms (0.343 m) is a
      detection, one after 4 ms (0.686 m) is not. */
  lemma CycleExamples()
    ensures Observations([UltrasonicSensor(18, 24, 0.5, "A")], [2.0])
         == [Observation(None, None, Some(true), "A")]
    ensures Observations([UltrasonicSensor(18, 24, 0.5, "A")], [4.0])
         == [Observation(None, None, Some(false), "A")]
  {
  }
}
