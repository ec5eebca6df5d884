/**
 * The reconfiguration as a trace of effects on the registry (the sensor list
 * and the open-pin table), and the meaning of such a trace.
 */
module Reconfiguration {
  import opened Gpio
  import opened Sensors

  /** One observable step of a reconfiguration. */
  datatype Effect =
    | PinClosed(pin: int)
    | SensorsCleared
    | SensorAdded(sensor: UltrasonicSensor)
    | PinOpened(pin: int, mode: PinMode)

  /** The sensor list together with the controller's open-pin table. */
  datatype Registry = Registry(sensors: seq<UltrasonicSensor>, openPins: map<int, PinMode>)

  /** The registry at start-up: no sensor, no open pin. */
  const Initial := Registry([], map[])

  /** The effects performed so far, oldest first. The GPIO controller appends
      each pin it opens or closes, and the program each change to its list. */
  class Journal {
    ghost var effects: seq<Effect>

    ghost constructor ()
      ensures effects == []
    {
      effects := [];
    }
  }

  /** Closing the pins of the old sensors: trigger then echo, sensor by sensor. */
  function TeardownEffects(sensors: seq<UltrasonicSensor>): seq<Effect>
  {
    if sensors == [] then []
    else
      var n := |sensors| - 1;
      TeardownEffects(sensors[..n]) + [PinClosed(sensors[n].gpioTrigger), PinClosed(sensors[n].gpioEcho)]
  }

  /** Installing the new sensors: add the sensor, open its trigger as output,
      open its echo as input, sensor by sensor. */
  function SetupEffects(sensors: seq<UltrasonicSensor>): seq<Effect>
  {
    if sensors == [] then []
    else
      var n := |sensors| - 1;
      SetupEffects(sensors[..n])
        + [SensorAdded(sensors[n]), PinOpened(sensors[n].gpioTrigger, Output), PinOpened(sensors[n].gpioEcho, Input)]
  }

  /** The whole reconfiguration from `oldSensors` to `newSensors`. */
  function ReconfigureEffects(oldSensors: seq<UltrasonicSensor>, newSensors: seq<UltrasonicSensor>): seq<Effect>
  {
    TeardownEffects(oldSensors) + [SensorsCleared] + SetupEffects(newSensors)
  }

  /** What one effect does to the registry. */
  function Apply(registry: Registry, effect: Effect): Registry
  {
    match effect
    case PinClosed(pin) => registry.(openPins := registry.openPins - {pin})
    case SensorsCleared => registry.(sensors := [])
    case SensorAdded(sensor) => registry.(sensors := registry.sensors + [sensor])
    case PinOpened(pin, mode) => registry.(openPins := registry.openPins[pin := mode])
  }

  /** The registry after a trace of effects, applied first to last. */
  function Replay(registry: Registry, effects: seq<Effect>): Registry
  {
    if effects == [] then registry
    else Apply(Replay(registry, effects[..|effects| - 1]), effects[|effects| - 1])
  }

  /** Teardown closes the trigger, then the echo, of each old sensor in list order. */
  lemma {:induction false} TeardownEffectsAt(sensors: seq<UltrasonicSensor>)
    ensures |TeardownEffects(sensors)| == 2 * |sensors|
    ensures forall k :: 0 <= k < |sensors| ==>
      && TeardownEffects(sensors)[2 * k] == PinClosed(sensors[k].gpioTrigger)
      && TeardownEffects(sensors)[2 * k + 1] == PinClosed(sensors[k].gpioEcho)
  {
    if sensors != [] {
      var n := |sensors| - 1;
      TeardownEffectsAt(sensors[..n]);
    }
  }

  /** Setup adds each new sensor and then opens its trigger and its echo, in
      manifest order. */
  lemma {:induction false} SetupEffectsAt(sensors: seq<UltrasonicSensor>)
    ensures |SetupEffects(sensors)| == 3 * |sensors|
    ensures forall k :: 0 <= k < |sensors| ==>
      && SetupEffects(sensors)[3 * k] == SensorAdded(sensors[k])
      && SetupEffects(sensors)[3 * k + 1] == PinOpened(sensors[k].gpioTrigger, Output)
      && SetupEffects(sensors)[3 * k + 2] == PinOpened(sensors[k].gpioEcho, Input)
  {
    if sensors != [] {
      var n := |sensors| - 1;
      SetupEffectsAt(sensors[..n]);
    }
  }

  /** Replaying one more effect applies it to the registry replayed so far. */
  lemma ReplaySnoc(registry: Registry, effects: seq<Effect>, effect: Effect)
    ensures Replay(registry, effects + [effect]) == Apply(Replay(registry, effects), effect)
  {
    assert (effects + [effect])[..|effects|] == effects;
  }

  lemma ReplayPair(registry: Registry, effects: seq<Effect>, first: Effect, second: Effect)
    ensures Replay(registry, effects + [first, second])
         == Apply(Apply(Replay(registry, effects), first), second)
  {
    assert effects + [first, second] == (effects + [first]) + [second];
    ReplaySnoc(registry, effects + [first], second);
    ReplaySnoc(registry, effects, first);
  }

  lemma ReplayTriple(registry: Registry, effects: seq<Effect>, first: Effect, second: Effect, third: Effect)
    ensures Replay(registry, effects + [first, second, third])
         == Apply(Apply(Apply(Replay(registry, effects), first), second), third)
  {
    assert effects + [first, second, third] == (effects + [first]) + [second, third];
    ReplayPair(registry, effects + [first], second, third);
    ReplaySnoc(registry, effects, first);
  }

  /** Replaying two traces one after the other is replaying their concatenation. */
  lemma {:induction false} ReplayConcat(registry: Registry, first: seq<Effect>, second: seq<Effect>)
    ensures Replay(registry, first + second) == Replay(Replay(registry, first), second)
  {
    if second == [] {
      assert first + second == first;
    } else {
      var n := |second| - 1;
      ReplayConcat(registry, first, second[..n]);
      assert first + second == (first + second[..n]) + [second[n]];
      assert second == second[..n] + [second[n]];
      ReplaySnoc(registry, first + second[..n], second[n]);
      ReplaySnoc(Replay(registry, first), second[..n], second[n]);
    }
  }

  /** Teardown closes every pin of the old sensors and touches nothing else. */
  lemma {:induction false} ReplayTeardown(registry: Registry, oldSensors: seq<UltrasonicSensor>)
    ensures Replay(registry, TeardownEffects(oldSensors))
         == registry.(openPins := registry.openPins - PinSet(oldSensors))
  {
    if oldSensors != [] {
      var n := |oldSensors| - 1;
      var init, last := oldSensors[..n], oldSensors[n];
      ReplayTeardown(registry, init);
      ReplayPair(registry, TeardownEffects(init), PinClosed(last.gpioTrigger), PinClosed(last.gpioEcho));
      assert oldSensors == init + [last];
      PinSetAppend(init, last);
      RemoveKeys(registry.openPins, PinSet(init), last.gpioTrigger, last.gpioEcho);
    }
  }

  /** Setup from the empty registry installs the new sensors in order, each
      trigger open as output and each echo open as input. */
  lemma {:induction false} ReplaySetup(newSensors: seq<UltrasonicSensor>)
    ensures Replay(Initial, SetupEffects(newSensors)) == Registry(newSensors, PinTable(newSensors))
  {
    if newSensors != [] {
      var n := |newSensors| - 1;
      var init, last := newSensors[..n], newSensors[n];
      ReplaySetup(init);
      ReplayTriple(Initial, SetupEffects(init),
        SensorAdded(last), PinOpened(last.gpioTrigger, Output), PinOpened(last.gpioEcho, Input));
      assert newSensors == init + [last];
    }
  }

  /** Replaying a reconfiguration on a registry whose open pins are exactly
      those of its sensors leaves exactly the new sensors and their pins: no pin
      of an old sensor stays open unless a new sensor uses it. */
  lemma ReplayReconfigure(oldSensors: seq<UltrasonicSensor>, newSensors: seq<UltrasonicSensor>)
    ensures Replay(Registry(oldSensors, PinTable(oldSensors)), ReconfigureEffects(oldSensors, newSensors))
         == Registry(newSensors, PinTable(newSensors))
  {
    var start := Registry(oldSensors, PinTable(oldSensors));
    var teardown := TeardownEffects(oldSensors);
    ReplayTeardown(start, oldSensors);
    AllPinsClosed(oldSensors);
    ReplaySnoc(start, teardown, SensorsCleared);
    ReplayConcat(start, teardown + [SensorsCleared], SetupEffects(newSensors));
    ReplaySetup(newSensors);
  }

  /** A reconfiguration first closes the trigger and echo of every old sensor,
      then clears the list, and only after that adds sensors and opens pins. */
  lemma TeardownBeforeSetup(oldSensors: seq<UltrasonicSensor>, newSensors: seq<UltrasonicSensor>)
    ensures var effects := ReconfigureEffects(oldSensors, newSensors);
      && |effects| == 2 * |oldSensors| + 1 + 3 * |newSensors|
      && effects[2 * |oldSensors|] == SensorsCleared
      && (forall i :: 0 <= i < 2 * |oldSensors| ==> effects[i].PinClosed?)
      && (forall i :: 2 * |oldSensors| < i < |effects| ==> effects[i].SensorAdded? || effects[i].PinOpened?)
      && (forall p :: p in PinSet(oldSensors) ==> PinClosed(p) in effects[..2 * |oldSensors|])
  {
    var effects := ReconfigureEffects(oldSensors, newSensors);
    var teardown, setup := TeardownEffects(oldSensors), SetupEffects(newSensors);
    TeardownEffectsAt(oldSensors);
    SetupEffectsAt(newSensors);
    var c := 2 * |oldSensors|;
    assert effects[..c] == teardown;
    forall i | 0 <= i < c
      ensures effects[i].PinClosed?
    {
      var k := i / 2;
      assert effects[i] == teardown[i];
      assert teardown[2 * k] == PinClosed(oldSensors[k].gpioTrigger);
      assert teardown[2 * k + 1] == PinClosed(oldSensors[k].gpioEcho);
    }
    forall i | c < i < |effects|
      ensures effects[i].SensorAdded? || effects[i].PinOpened?
    {
      var j := i - c - 1;
      var k := j / 3;
      assert effects[i] == setup[j];
      assert setup[3 * k] == SensorAdded(newSensors[k]);
      assert setup[3 * k + 1] == PinOpened(newSensors[k].gpioTrigger, Output);
      assert setup[3 * k + 2] == PinOpened(newSensors[k].gpioEcho, Input);
    }
    forall p | p in PinSet(oldSensors)
      ensures PinClosed(p) in effects[..c]
    {
      var s :| s in oldSensors && (s.gpioTrigger == p || s.gpioEcho == p);
      var k :| 0 <= k < |oldSensors| && oldSensors[k] == s;
      assert teardown[2 * k] == PinClosed(s.gpioTrigger);
      assert teardown[2 * k + 1] == PinClosed(s.gpioEcho);
    }
  }

  /** The teardown trace grows by the two closes of the next sensor. */
  lemma TeardownEffectsStep(sensors: seq<UltrasonicSensor>, i: nat)
    requires i < |sensors|
    ensures TeardownEffects(sensors[..i + 1])
         == TeardownEffects(sensors[..i]) + [PinClosed(sensors[i].gpioTrigger), PinClosed(sensors[i].gpioEcho)]
  {
    assert sensors[..i + 1][..i] == sensors[..i];
  }

  /** Adding the sensor of manifest entry `i` after those before it: its pins
      are free, and the table grows by exactly that sensor. */
  lemma AddStep(manifest: seq<ManifestEntry>, i: nat)
    requires PinsDistinct(FromManifest(manifest))
    requires i < |manifest|
    ensures var prefix, entry := FromManifest(manifest)[..i], manifest[i];
      var sensor := UltrasonicSensor(entry.trigger, entry.echo, entry.sensingDistance, entry.id);
      && FromManifest(manifest)[..i + 1] == prefix + [sensor]
      && entry.trigger !in PinTable(prefix)
      && entry.echo !in PinTable(prefix)[entry.trigger := Output]
      && PinTable(prefix + [sensor]) == PinTable(prefix)[entry.trigger := Output][entry.echo := Input]
  {
    var sensors := FromManifest(manifest);
    OpenStep(sensors, i);
    assert sensors[..i + 1] == sensors[..i] + [sensors[i]];
    assert (sensors[..i] + [sensors[i]])[..i] == sensors[..i];
  }

  /** Extending a trace by two effects, one after the other. */
  lemma AppendAssociative(effects: seq<Effect>, done: seq<Effect>, first: Effect, second: Effect)
    ensures effects + done + [first] + [second] == effects + (done + [first, second])
  {
  }

  /** Recording the add and the two opens of one more sensor extends a trace
      that ends in the setup of `sensors` to one that ends in the setup of
      `sensors + [sensor]`. */
  lemma SetupEffectsStep(effects: seq<Effect>, sensors: seq<UltrasonicSensor>, sensor: UltrasonicSensor)
    ensures effects + SetupEffects(sensors)
              + [SensorAdded(sensor)] + [PinOpened(sensor.gpioTrigger, Output)] + [PinOpened(sensor.gpioEcho, Input)]
         == effects + SetupEffects(sensors + [sensor])
  {
    assert (sensors + [sensor])[..|sensors|] == sensors;
  }
}
