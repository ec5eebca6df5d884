/**
 * The module's shared state and its two activities: reconfiguring the sensors
 * when the desired properties change, and composing one cycle of telemetry.
 */
module UltraSonicDistanceModule {
  import opened Wrappers
  import opened Gpio
  import opened Controller
  import opened Sensors
  import opened Telemetry
  import opened Reconfiguration

  class Program {
    /** The GPIO controller through which every pin is opened and closed. */
    const controller: GpioController
    /** The configured sensors, in polling order. */
    var sensors: seq<UltrasonicSensor>
    /** Every reconfiguration effect performed so far, oldest first, shared
        with the controller. */
    ghost const journal: Journal

    /** The open pins are exactly those of the configured sensors, in their
        modes, and the state is what the recorded effects produce from start-up. */
    ghost predicate Valid()
      reads this, controller, journal
    {
      && controller.journal == journal
      && PinsDistinct(sensors)
      && controller.openPins == PinTable(sensors)
      && Replay(Initial, journal.effects) == Registry(sensors, controller.openPins)
    }

    /** At start-up there is no sensor and no pin is open. */
    constructor ()
      ensures Valid()
      ensures fresh(controller) && fresh(journal)
      ensures sensors == [] && controller.openPins == map[] && journal.effects == []
    {
      ghost var effects := new Journal();
      journal := effects;
      controller := new GpioController(effects);
      sensors := [];
    }

    /** Applies the desired properties. Without an `ultrasonicSensors` key
        nothing changes. With one, the pins of every old sensor are closed, the
        list is cleared, and each manifest entry in turn becomes a sensor whose
        trigger is opened as output and echo as input. */
    method ConfigureSensors(desired: DesiredProperties)
      requires Valid()
      requires desired.ultrasonicSensors.Some? ==> PinsDistinct(FromManifest(desired.ultrasonicSensors.value))
      modifies this, controller, journal
      ensures Valid()
      ensures desired.ultrasonicSensors.None? ==>
        && sensors == old(sensors)
        && controller.openPins == old(controller.openPins)
        && journal.effects == old(journal.effects)
      ensures desired.ultrasonicSensors.Some? ==>
        && sensors == FromManifest(desired.ultrasonicSensors.value)
        && journal.effects == old(journal.effects) + ReconfigureEffects(old(sensors), sensors)
      ensures forall i :: 0 <= i < |sensors| ==>
        && sensors[i].gpioTrigger in controller.openPins
        && controller.openPins[sensors[i].gpioTrigger] == Output
        && sensors[i].gpioEcho in controller.openPins
        && controller.openPins[sensors[i].gpioEcho] == Input
      ensures controller.openPins.Keys == PinSet(sensors)
    {
      if desired.ultrasonicSensors.Some? {
        ghost var initialEffects, oldSensors := journal.effects, sensors;
        CloseSensors();
        AddSensors(desired.ultrasonicSensors.value);
        assert journal.effects == initialEffects + ReconfigureEffects(oldSensors, sensors);
        ReplayConcat(Initial, initialEffects, ReconfigureEffects(oldSensors, sensors));
        ReplayReconfigure(oldSensors, sensors);
      }
      PinTableModes(sensors);
      PinTableKeys(sensors);
    }

    /** Empties the list and records that it was cleared. */
    method ClearSensors()
      modifies this, journal
      ensures sensors == []
      ensures journal.effects == old(journal.effects) + [SensorsCleared]
    {
      sensors := [];
      journal.effects := journal.effects + [SensorsCleared];
    }

    /** Appends `sensor` to the list and records that it was added. */
    method AddSensor(sensor: UltrasonicSensor)
      modifies this, journal
      ensures sensors == old(sensors) + [sensor]
      ensures journal.effects == old(journal.effects) + [SensorAdded(sensor)]
    {
      sensors := sensors + [sensor];
      journal.effects := journal.effects + [SensorAdded(sensor)];
    }

    /** Closes the trigger and echo pins of every configured sensor, then clears
        the list: afterwards no pin is open and no sensor is configured. */
    method CloseSensors()
      requires controller.journal == journal
      requires PinsDistinct(sensors) && controller.openPins == PinTable(sensors)
      modifies this, controller, journal
      ensures sensors == [] && controller.openPins == map[]
      ensures journal.effects == old(journal.effects) + TeardownEffects(old(sensors)) + [SensorsCleared]
    {
      ghost var initialEffects := journal.effects;
      ghost var oldSensors := sensors;
      for i := 0 to |sensors|
        invariant sensors == oldSensors
        invariant controller.openPins == PinTable(oldSensors) - PinSet(oldSensors[..i])
        invariant journal.effects == initialEffects + TeardownEffects(oldSensors[..i])
      {
        var oldSensor := sensors[i];
        CloseStep(oldSensors, i);
        TeardownEffectsStep(oldSensors, i);
        AppendAssociative(initialEffects, TeardownEffects(oldSensors[..i]),
          PinClosed(oldSensor.gpioTrigger), PinClosed(oldSensor.gpioEcho));
        controller.ClosePin(oldSensor.gpioTrigger);
        controller.ClosePin(oldSensor.gpioEcho);
      }
      assert oldSensors[..|oldSensors|] == oldSensors;
      AllPinsClosed(oldSensors);
      ClearSensors();
    }

    /** Appends one sensor per manifest entry, in manifest order, opening its
        trigger as output and then its echo as input right after adding it. */
    method AddSensors(manifest: seq<ManifestEntry>)
      requires controller.journal == journal
      requires sensors == [] && controller.openPins == map[]
      requires PinsDistinct(FromManifest(manifest))
      modifies this, controller, journal
      ensures sensors == FromManifest(manifest)
      ensures controller.openPins == PinTable(sensors)
      ensures journal.effects == old(journal.effects) + SetupEffects(sensors)
    {
      ghost var initialEffects := journal.effects;
      ghost var newSensors := FromManifest(manifest);
      for i := 0 to |manifest|
        invariant sensors == newSensors[..i]
        invariant controller.openPins == PinTable(sensors)
        invariant journal.effects == initialEffects + SetupEffects(sensors)
      {
        var entry := manifest[i];
        var sensor := UltrasonicSensor(entry.trigger, entry.echo, entry.sensingDistance, entry.id);
        AddStep(manifest, i);
        SetupEffectsStep(initialEffects, sensors, sensor);
        AddSensor(sensor);
        controller.OpenPin(entry.trigger, Output);
        controller.OpenPin(entry.echo, Input);
      }
      assert newSensors[..|manifest|] == newSensors;
    }

    /** One telemetry cycle, given the time measured for each sensor in list
        order: a fresh message holds one observation per sensor, and it is sent
        exactly when it is not empty, that is, when some sensor is configured. */
    method SendTelemetryCycle(millisecsTaken: seq<real>) returns (message: RecEdgeMessage, send: bool)
      requires |millisecsTaken| == |sensors|
      ensures message.deviceId == None
      ensures message.observations == Observations(sensors, millisecsTaken)
      ensures send <==> |sensors| > 0
    {
      message := RecEdgeMessage(None, []);
      for i := 0 to |sensors|
        invariant message.deviceId == None
        invariant message.observations == Observations(sensors[..i], millisecsTaken[..i])
      {
        var sensor := sensors[i];
        var distance := Distance(millisecsTaken[i]);
        var presenceObservation := Observation(None, None, Some(distance < sensor.sensingDistance), sensor.sensorId);
        message := message.(observations := message.observations + [presenceObservation]);
        assert sensors[..i + 1][..i] == sensors[..i];
        assert millisecsTaken[..i + 1][..i] == millisecsTaken[..i];
      }
      assert sensors[..|sensors|] == sensors;
      assert millisecsTaken[..|sensors|] == millisecsTaken;
      send := |message.observations| > 0;
    }
  }
}
