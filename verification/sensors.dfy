/**
 * The configured sensors, the sensor manifest found in the desired properties,
 * and the pin bookkeeping the reconfiguration relies on.
 */
module Sensors {
  import opened Wrappers
  import opened Gpio

  /** One ultrasonic sensor: its trigger and echo pins, the distance in meters
      below which it reports a detection, and its identifier. */
  datatype UltrasonicSensor = UltrasonicSensor(
    gpioTrigger: int,
    gpioEcho: int,
    sensingDistance: real,
    sensorId: string)

  /** One element of the `ultrasonicSensors` array, already read from JSON. */
  datatype ManifestEntry = ManifestEntry(id: string, trigger: int, echo: int, sensingDistance: real)

  /** The desired properties as far as the module looks at them: the
      `ultrasonicSensors` key is either absent or holds a manifest. */
  datatype DesiredProperties = DesiredProperties(ultrasonicSensors: Option<seq<ManifestEntry>>)

  /** The sensors a manifest describes, one per entry, in manifest order. */
  function FromManifest(manifest: seq<ManifestEntry>): (sensors: seq<UltrasonicSensor>)
    ensures |sensors| == |manifest|
    ensures forall i :: 0 <= i < |manifest| ==>
      && sensors[i].sensorId == manifest[i].id
      && sensors[i].gpioTrigger == manifest[i].trigger
      && sensors[i].gpioEcho == manifest[i].echo
      && sensors[i].sensingDistance == manifest[i].sensingDistance
  {
    seq(|manifest|, i requires 0 <= i < |manifest| =>
      UltrasonicSensor(manifest[i].trigger, manifest[i].echo, manifest[i].sensingDistance, manifest[i].id))
  }

  /** Every pin some sensor of `sensors` uses, as trigger or as echo. */
  function PinSet(sensors: seq<UltrasonicSensor>): set<int>
  {
    (set s | s in sensors :: s.gpioTrigger) + (set s | s in sensors :: s.gpioEcho)
  }

  /** No pin is used twice: a sensor's trigger differs from its echo, and no two
      sensors share a pin. */
  predicate PinsDistinct(sensors: seq<UltrasonicSensor>)
  {
    && (forall i :: 0 <= i < |sensors| ==> sensors[i].gpioTrigger != sensors[i].gpioEcho)
    && (forall i, j :: 0 <= i < j < |sensors| ==>
          && sensors[i].gpioTrigger != sensors[j].gpioTrigger
          && sensors[i].gpioTrigger != sensors[j].gpioEcho
          && sensors[i].gpioEcho != sensors[j].gpioTrigger
          && sensors[i].gpioEcho != sensors[j].gpioEcho)
  }

  /** The open-pin table that opening, sensor after sensor, the trigger as
      output and then the echo as input produces from a controller with no
      open pin. */
  function PinTable(sensors: seq<UltrasonicSensor>): map<int, PinMode>
  {
    if sensors == [] then map[]
    else
      var last := sensors[|sensors| - 1];
      PinTable(sensors[..|sensors| - 1])[last.gpioTrigger := Output][last.gpioEcho := Input]
  }

  lemma PinSetAppend(sensors: seq<UltrasonicSensor>, s: UltrasonicSensor)
    ensures PinSet(sensors + [s]) == PinSet(sensors) + {s.gpioTrigger, s.gpioEcho}
  {
    var extended := sensors + [s];
    assert forall t :: t in extended <==> t in sensors || t == s;
  }

  /** The table holds exactly the pins of the sensors, whatever they are. */
  lemma {:induction false} PinTableKeys(sensors: seq<UltrasonicSensor>)
    ensures PinTable(sensors).Keys == PinSet(sensors)
  {
    if sensors != [] {
      var init, last := sensors[..|sensors| - 1], sensors[|sensors| - 1];
      PinTableKeys(init);
      assert sensors == init + [last];
      PinSetAppend(init, last);
    }
  }

  /** With distinct pins, each trigger is held as output and each echo as input. */
  lemma {:induction false} PinTableModes(sensors: seq<UltrasonicSensor>)
    requires PinsDistinct(sensors)
    ensures forall i :: 0 <= i < |sensors| ==>
      && sensors[i].gpioTrigger in PinTable(sensors)
      && PinTable(sensors)[sensors[i].gpioTrigger] == Output
      && sensors[i].gpioEcho in PinTable(sensors)
      && PinTable(sensors)[sensors[i].gpioEcho] == Input
  {
    if sensors != [] {
      var init := sensors[..|sensors| - 1];
      PinTableModes(init);
      forall i | 0 <= i < |sensors| - 1
        ensures sensors[i] == init[i]
      {
      }
    }
  }

  /** The pins of the sensor at index `i` are distinct from each other and from
      every pin of the sensors before it. */
  lemma PinsFreshAt(sensors: seq<UltrasonicSensor>, i: nat)
    requires PinsDistinct(sensors)
    requires i < |sensors|
    ensures sensors[i].gpioTrigger != sensors[i].gpioEcho
    ensures sensors[i].gpioTrigger !in PinSet(sensors[..i])
    ensures sensors[i].gpioEcho !in PinSet(sensors[..i])
  {
    forall s | s in sensors[..i]
      ensures s.gpioTrigger != sensors[i].gpioTrigger && s.gpioTrigger != sensors[i].gpioEcho
      ensures s.gpioEcho != sensors[i].gpioTrigger && s.gpioEcho != sensors[i].gpioEcho
    {
      var k :| 0 <= k < i && sensors[k] == s;
    }
  }

  /** Closing the pins of the sensor at index `i` is allowed after those of the
      sensors before it are closed, and afterwards its pins are closed too. */
  lemma CloseStep(sensors: seq<UltrasonicSensor>, i: nat)
    requires PinsDistinct(sensors)
    requires i < |sensors|
    ensures var open := PinTable(sensors) - PinSet(sensors[..i]);
      && sensors[i].gpioTrigger in open
      && sensors[i].gpioEcho in open - {sensors[i].gpioTrigger}
      && open - {sensors[i].gpioTrigger} - {sensors[i].gpioEcho} == PinTable(sensors) - PinSet(sensors[..i + 1])
  {
    PinsFreshAt(sensors, i);
    PinTableKeys(sensors);
    assert sensors[i] in sensors;
    assert sensors[..i + 1] == sensors[..i] + [sensors[i]];
    PinSetAppend(sensors[..i], sensors[i]);
    RemoveKeys(PinTable(sensors), PinSet(sensors[..i]), sensors[i].gpioTrigger, sensors[i].gpioEcho);
  }

  /** Opening the pins of the sensor at index `i` is allowed once those of the
      sensors before it are open, and extends the table to that sensor. */
  lemma OpenStep(sensors: seq<UltrasonicSensor>, i: nat)
    requires PinsDistinct(sensors)
    requires i < |sensors|
    ensures sensors[i].gpioTrigger !in PinTable(sensors[..i])
    ensures sensors[i].gpioEcho !in PinTable(sensors[..i])[sensors[i].gpioTrigger := Output]
    ensures PinTable(sensors[..i])[sensors[i].gpioTrigger := Output][sensors[i].gpioEcho := Input]
         == PinTable(sensors[..i + 1])
  {
    PinsFreshAt(sensors, i);
    PinTableKeys(sensors[..i]);
    assert sensors[..i + 1][..i] == sensors[..i];
  }

  /** Once the pins of all sensors are closed, no pin of the table is left. */
  lemma AllPinsClosed(sensors: seq<UltrasonicSensor>)
    ensures PinTable(sensors) - PinSet(sensors) == map[]
  {
    PinTableKeys(sensors);
    assert (PinTable(sensors) - PinSet(sensors)).Keys == {};
  }

  /** Removing a set of pins and then two more removes all of them. */
  lemma RemoveKeys(table: map<int, PinMode>, closed: set<int>, first: int, second: int)
    ensures table - closed - {first} - {second} == table - (closed + {first, second})
  {
  }
}
