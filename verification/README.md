# Ultrasonic distance module, modelled in Dafny

The module drives one or more ultrasonic range sensors over GPIO pins and
reports, once per telemetry cycle, whether each sensor sees an object closer
than its configured sensing distance. The set of sensors comes from the
module twin's desired properties (`ultrasonicSensors`) and can change at any
time.

This project models the two sequential parts of
`modules/UltraSonicDistanceModule/Program.cs`:

- **Sensor reconfiguration** (`ConfigureSensors`). The state is the static
  sensor list and the set of pins the GPIO controller holds open. The class
  `UltraSonicDistanceModule.Program` keeps the list as a `seq` and the
  controller (`Controller.GpioController`) keeps its open pins as a
  `map<int, PinMode>`. `ConfigureSensors` is imperative, like the source. It
  closes the trigger and echo pin of every old sensor, clears the list, then
  for each manifest entry adds a sensor and opens its trigger as output and its
  echo as input.
- **One telemetry cycle** (`SendTelemetry` without its I/O). The time measured
  for each sensor is an input. A loop turns each time into a distance
  (`ms * 0.343 / 2`), and the distance into an observation whose boolean value is
  `distance < SensingDistance`. The message is sent only when it holds at least
  one observation.

The reconfiguration's steps are recorded, in the order they happen, in a ghost
journal of effects: pin closed, list cleared, sensor added, pin opened (module
`Reconfiguration`). The journal is written by the operations themselves, not
beside them. `GpioController.OpenPin` and `GpioController.ClosePin` each append
their own effect. The list changes only through `Program.ClearSensors` and
`Program.AddSensor`, and each of those appends its effect too. So the loops'
invariants, which say the journal grows by exactly the teardown and setup
traces, fix the real order of the calls. Opening the echo before the trigger,
or adding a sensor after opening its pins, breaks them.
`Replay` gives a journal a meaning on the registry, the pair of sensor list
and open-pin table. The class invariant `Valid()` says three things:
- no pin is used twice;
- the open pins are exactly the configured sensors' pins, triggers as output and
  echoes as input;
- the current state is what replaying the whole journal from start-up produces.

The model follows these facts about the code:
- The code does not validate the manifest.
- It does not roll back when opening a pin fails.
- The echo wait has no timeout.
- Every observation carries a boolean value; there is no "absent" value.
- The time it measures runs from trigger-low to echo-high (`Program.cs`
  :177-180), not the width of the echo pulse.

Modules: `Wrappers` (Option), `Gpio` (pin modes), `Sensors` (sensor records,
manifest, pin bookkeeping), `Telemetry` (distance, presence, observations),
`Reconfiguration` (effect traces, the journal, and their replay), `Controller`
(the GPIO controller), `UltraSonicDistanceModule` (the `Program` class with the
shared state).

## Model

| member | source | states |
|---|---|---|
| `UltraSonicDistanceModule.Program.constructor` | modules/UltraSonicDistanceModule/Program.cs:53-64 | At start-up the sensor list is empty and the fresh controller holds no open pin; the invariant holds. |
| `UltraSonicDistanceModule.Program.ConfigureSensors` | modules/UltraSonicDistanceModule/Program.cs:131-155 | Without the `ultrasonicSensors` key, the list, the open pins and the journal are unchanged. With it, the list becomes the manifest's sensors in manifest order. The journal grows by exactly the closes of all old pins, then the clear, then add/open per new sensor. Every new trigger is open as output and every echo as input. The open pins are exactly the new sensors' pins, so a pin only an old sensor used is closed. The invariant is preserved. |
| `UltraSonicDistanceModule.Program.CloseSensors` | modules/UltraSonicDistanceModule/Program.cs:134-139 | After closing trigger and echo of each old sensor in list order and clearing the list, no pin is open and no sensor is configured. The journal grows by exactly those closes, in that order, then the clear. |
| `UltraSonicDistanceModule.Program.ClearSensors` | modules/UltraSonicDistanceModule/Program.cs:139 | Clearing leaves the list empty and records the clear in the journal. |
| `UltraSonicDistanceModule.Program.AddSensor` | modules/UltraSonicDistanceModule/Program.cs:148 | Adding appends the sensor at the end of the list and records the add in the journal. |
| `UltraSonicDistanceModule.Program.AddSensors` | modules/UltraSonicDistanceModule/Program.cs:141-153 | From an empty list and no open pin, the list becomes one sensor per manifest entry, in order. The open pins become the table of those sensors' pins. The journal grows by add, open trigger, open echo per sensor, in that order. |
| `UltraSonicDistanceModule.Program.SendTelemetryCycle` | modules/UltraSonicDistanceModule/Program.cs:157-211 | A cycle starts from an empty message and yields exactly one observation per configured sensor, in list order. Each carries that sensor's id and `distance < SensingDistance` (:195) for its measured time. No device id is set. The message is sent iff it holds at least one observation (:200), that is, iff some sensor is configured. |
| `Controller.GpioController.OpenPin` | modules/UltraSonicDistanceModule/Program.cs:150-151 | Opening a pin that is not open records it in the requested mode and leaves every other pin as it was. The open is appended to the journal. |
| `Controller.GpioController.ClosePin` | modules/UltraSonicDistanceModule/Program.cs:136-137 | Closing an open pin removes it and leaves every other pin as it was. The close is appended to the journal. |
| `Sensors.FromManifest` | modules/UltraSonicDistanceModule/Program.cs:143-148 | One sensor per manifest entry, in manifest order, with id, trigger, echo and sensing distance copied from the entry. |
| `Sensors.PinTableKeys` | modules/UltraSonicDistanceModule/Program.cs:143-151 | Opening the pins of a list of sensors leaves open exactly the set of their trigger and echo pins. |
| `Sensors.PinTableModes` | modules/UltraSonicDistanceModule/Program.cs:150-151 | With distinct pins, every sensor's trigger is open as output and its echo as input. |
| `Sensors.PinsFreshAt` | modules/UltraSonicDistanceModule/Program.cs:143-151 | With distinct pins, the pins of each sensor are never among those of the sensors before it, so each open targets a closed pin. |
| `Reconfiguration.TeardownEffectsAt` | modules/UltraSonicDistanceModule/Program.cs:135-138 | Teardown closes, for each old sensor in list order, its trigger and then its echo; nothing else. |
| `Reconfiguration.SetupEffectsAt` | modules/UltraSonicDistanceModule/Program.cs:143-153 | Setup, for each new sensor in order, adds the sensor, then opens its trigger as output, then its echo as input. |
| `Reconfiguration.ReplayTeardown` | modules/UltraSonicDistanceModule/Program.cs:135-138 | Replaying the teardown removes exactly the old sensors' pins from the open-pin table and leaves the list alone. |
| `Reconfiguration.ReplaySetup` | modules/UltraSonicDistanceModule/Program.cs:143-153 | Replaying the setup from the empty registry yields the new sensors with their triggers open as output and echoes as input. |
| `Reconfiguration.ReplayReconfigure` | modules/UltraSonicDistanceModule/Program.cs:131-155 | From a registry whose open pins are those of its sensors, a whole reconfiguration leaves exactly the new sensors and their pins, whatever the old ones were. |
| `Reconfiguration.TeardownBeforeSetup` | modules/UltraSonicDistanceModule/Program.cs:134-153 | In a reconfiguration every step before the clear is a close and every step after it is an add or an open. Each pin of every old sensor is closed before the clear. |
| `Reconfiguration.ReplayConcat` | modules/UltraSonicDistanceModule/Program.cs:131-155 | Successive reconfigurations compose: replaying two traces in turn equals replaying their concatenation. |
| `Telemetry.Distance` | modules/UltraSonicDistanceModule/Program.cs:183-185 | The distance for a time in milliseconds equals seconds x 343 / 2, and is non-negative for a non-negative time. |
| `Telemetry.DistanceEchoTimeInverse` | modules/UltraSonicDistanceModule/Program.cs:183-185 | Distance and echo time convert into each other without loss in both directions. |
| `Telemetry.DistanceAtZero` | modules/UltraSonicDistanceModule/Program.cs:185 | A zero time gives a zero distance. |
| `Telemetry.DistanceMonotonic` | modules/UltraSonicDistanceModule/Program.cs:185 | Distance is nondecreasing in the time, and strictly increasing. |
| `Telemetry.PresenceAtThreshold` | modules/UltraSonicDistanceModule/Program.cs:193-195 | A sensor whose measured distance equals its sensing distance gets the boolean value false: the comparison at :195 is strict. |
| `Telemetry.PresenceByEchoTime` | modules/UltraSonicDistanceModule/Program.cs:185-195 | A sensor's observation is true iff its measured time is below the echo time of its sensing distance. This is the threshold read as a time. |
| `Telemetry.Observations` | modules/UltraSonicDistanceModule/Program.cs:165-197 | One observation per sensor, in list order. Each has the sensor's id and the presence flag for its time. The numeric and string values stay null. |
| `Telemetry.CycleExamples` | modules/UltraSonicDistanceModule/Program.cs:183-200 | For a 0.5 m threshold, 2 ms (0.343 m) is a detection and 4 ms (0.686 m) is not. |

## Left out

- The Azure IoT Edge client is network I/O through an SDK: creating and opening `ModuleClient`, fetching the twin, registering the desired-property callback, and `SendEventAsync` (:92-111, :210). `SendTelemetryCycle` returns the message and the send decision instead of sending.
- JSON parsing of the twin (:142-147). The manifest is a sequence of already-parsed entries. A missing field or a non-array value is not modelled.
- Reading `sensingDistance` as `float` and widening it to `double` (:147) is not modelled. The model keeps the value exact.
- JSON serialisation of the message (:201-208) is left out. Only its logical content is modelled; the `rec3.2` format tag is kept as a constant.
- The trigger burst (:168-174) and the echo wait (:178-179) are busy-wait loops on real hardware and `Stopwatch`. The echo wait has no bound, so its termination cannot be shown. The time measured per sensor is an input to `SendTelemetryCycle`, and the pin writes of the burst are not modelled.
- `MilliSecsToTicks` and `TicksToMillisecs` (:113-125) depend on `Stopwatch.Frequency` and on platform floating point. `MilliSecsToTicks` is also unused.
- Floating-point `double` arithmetic is modelled as exact `real` arithmetic.
- Concurrency is not modelled. `OnDesiredPropertyChanged` runs `ConfigureSensors` on `Task.Run` (:127-129) without a lock, racing `SendTelemetry` iterating the same list (:165). The model runs the two sequentially.
- Process lifecycle is not modelled: `Main`, cancellation, `WhenCancelled`, the `while` loop over cycles and `Task.Delay` (:66-86, :158, :213-215). `SendTelemetryCycle` is one iteration of that loop.
- `DateTime.Now` timestamps and console logging (:149, :186, :190, :209) are left out, as are the unused `ioTEdgeDeviceId` and `counter`.
- `UltraSonicDistanceModule.Program.ConfigureSensors`: requires that the manifest's pins are pairwise distinct (and each trigger differs from its echo). The GPIO library's behaviour when a pin is opened twice is not part of this model. So a manifest that reuses a pin is not modelled, nor is the partly applied state the source would be left in when `OpenPin` throws: the sensor is already added at :148 before its pins are opened at :150-151.
- `Controller.GpioController.OpenPin` and `Controller.GpioController.ClosePin` require the pin to be closed or open respectively. What the library does otherwise is not part of this model.
