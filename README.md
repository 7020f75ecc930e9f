# ESPHome sensor mapping for Homebridge, modelled in Dafny

This project models the core of `homebridge-esphome-ts`. That core decides how an
ESPHome sensor entity becomes a HomeKit service and its characteristics, and it
keeps the platform's list of accessories up to date.

- `wrappers.dfy` (`Wrappers`): `Option` stands for `undefined`; `Result` stands for a value or a thrown error.
- `js_arrays.dfy` (`JsArrays`): `Array.prototype.find` and `Array.prototype.indexOf`.
- `homekit.dfy` (`HomeKit`): the service and characteristic kinds the sensor code uses. It also holds the values
  `setValue` accepts and two host classes. `HapService` holds the last value set on each characteristic.
  `Accessory` holds a UUID and an ordered list of services.
- `esphome.dfy` (`Esphome`): the entity (`Component`) and the platform and device configuration.
- `sensor.dfy` (`Sensor`), for `src/homebridgeAccessories/sensor.ts`:
  - the device-class table and the `sensorHelper` decision, with its legacy unit and icon fallbacks;
  - find-or-create of services;
  - the default, carbon-gas and air-quality setup routines;
  - the handler each routine installs, and the European air-quality index.
- `platform.ts` is modelled by `platform.dfy` (`Platform`). The `EsphomePlatform` class covers the
  constructor's device-list normalisation, `attachAccessory` and `configureAccessory`.

How the model represents the source:

- A reading is an `Option<real>`. JavaScript's `<` and `>` against `undefined` are false (`JsLess`,
  `JsGreater`). So an undefined pollutant density fails every band test and gets index 5
  (`AqiUndefinedIsWorst`). An undefined gas reading is never "detected".
- A setup routine finds or creates its service on the accessory, in place. It returns a `Handler`: the
  service object plus a `Binder` that records what the installed `state` callback closes over.
  `OnState` delivers one state event. It sets exactly the values `EventWrites` gives and nothing else.
- A thrown error in a setup routine is a `Thrown` result. `SensorHelper` proves that no table entry and no
  fallback ever reaches one.
- `attachAccessory`'s calls to the host are kept in the order made, in the `apiCalls` log.
  `UUIDGen.generate` is a function fixed at construction. `componentHelpers` is a map from component type to
  either `sensorHelper` or another helper known only by its answer.

The table has twelve keys, and the air-quality-index key is `aqi` (src/homebridgeAccessories/sensor.ts:55).
An unmappable entity still gets a fresh `Accessory` (src/platform.ts:151-155), which is dropped without being
registered. The accessory UUID is generated from the name and key run together, so two components whose
name and key spell the same text ("s1" with key 23, "s12" with key 3) share one accessory
(`AccessoryUuidIdentity`).

## Model

| member | source | states |
|---|---|---|
| `JsArrays.FindIndex` | src/homebridgeAccessories/sensor.ts:215-217 | `find` returns the first index whose element satisfies the predicate; it returns none exactly when no element does |
| `JsArrays.IndexOf` | src/platform.ts:159-160 | `indexOf` is -1 or an index; it is non-negative exactly when the element occurs, and it gives the first occurrence |
| `HomeKit.HapService.SetValue` | src/homebridgeAccessories/sensor.ts:239 | `setValue` changes only the one characteristic's value |
| `HomeKit.Accessory.AddService` | src/homebridgeAccessories/sensor.ts:219 | `accessory.addService` appends exactly the given service and returns it |
| `Sensor.IsTemperatureComponent` | src/homebridgeAccessories/sensor.ts:6-7 | true exactly for a two-character unit made of the degree sign and an upper-case C or F |
| `Sensor.FahrenheitToCelsius` | src/homebridgeAccessories/sensor.ts:9 | the result converts back to the input on the Fahrenheit scale (exact inverse) |
| `Sensor.FahrenheitFixedPoints` | src/homebridgeAccessories/sensor.ts:234-239 | a Fahrenheit handler writes 32 as 0 and 212 as 100, and passes `undefined` through |
| `Sensor.EuropeanAQI` | src/homebridgeAccessories/sensor.ts:329-389 | the level is always one of 0, 2, 3, 4, 5 (never 1); it is 0 exactly for characteristics other than PM2.5, PM10, ozone, NO2 and SO2 |
| `Sensor.ReachedMonotone` | src/homebridgeAccessories/sensor.ts:332-386 | a larger concentration reaches at least as many band thresholds |
| `Sensor.ReachedOfThree` | src/homebridgeAccessories/sensor.ts:332-342 | three increasing thresholds split the line into four half-open bands |
| `Sensor.AqiIsBandCount` | src/homebridgeAccessories/sensor.ts:332-386 | for a defined density, the index is 2 plus the number of thresholds in the reference table that the density has reached |
| `Sensor.AqiMonotone` | src/homebridgeAccessories/sensor.ts:332-386 | the index never decreases as the concentration grows |
| `Sensor.AqiPm25Boundaries` | src/homebridgeAccessories/sensor.ts:332-342 | thresholds are strict: PM2.5 at 10 gives 3 and at 25 gives 5; VOC gives 0 |
| `Sensor.AqiUndefinedIsWorst` | src/homebridgeAccessories/sensor.ts:329-389 | an undefined density of a supported pollutant yields 5 |
| `Sensor.MapGet` | src/homebridgeAccessories/sensor.ts:52-169 | the table lookup succeeds exactly for the twelve device-class keys; every entry routed to `defaultSetup` or `airQualityComponentSetup` carries a `sensorHomekit` |
| `Sensor.Resolve` | src/homebridgeAccessories/sensor.ts:171-207 | an entry is chosen iff the class is a table key, the unit is exactly °C or °F, or the unit is % with the water-percent icon; a chosen entry never lacks the `sensorHomekit` its routine needs |
| `Sensor.HumidityFallbackUnreachable` | src/homebridgeAccessories/sensor.ts:191-194 | whenever the fallback runs, the device class is not "humidity", so that disjunct is dead |
| `Sensor.SetupBinding` | src/homebridgeAccessories/sensor.ts:224-318 | a setup routine throws exactly when it is `defaultSetup` or `airQualityComponentSetup` and has no `sensorHomekit` |
| `Sensor.SensorHelperNeverThrows` | src/homebridgeAccessories/sensor.ts:172-176 | the routine of any entry `sensorHelper` picks does not throw |
| `Sensor.EventWrites` | src/homebridgeAccessories/sensor.ts:236-326 | an event writes one characteristic for the default binder; Level, plus Detected only when a threshold is set, for the carbon binder; the density and AirQuality for the air-quality binder |
| `Sensor.DefaultEventValue` | src/homebridgeAccessories/sensor.ts:234-239 | a defined Fahrenheit reading is written as the Celsius value that converts back to it; any other reading is written raw |
| `Sensor.CarbonDetection` | src/homebridgeAccessories/sensor.ts:286-292 | the level gets the raw reading; detected is `reading > threshold` (strict), and false when the reading is undefined |
| `Sensor.CarbonThreshold800` | src/homebridgeAccessories/sensor.ts:289-290 | with threshold 800, 799 and 800 are not detected and 801 is; without a threshold, detected is not written |
| `Sensor.AirQualityEventValues` | src/homebridgeAccessories/sensor.ts:321-326 | the density gets the raw reading and AirQuality gets `europeanAQI` of it |
| `Sensor.LatestEventWins` | src/homebridgeAccessories/sensor.ts:236-240 | a later event overwrites every value an earlier one set, so repeating an event changes nothing |
| `Sensor.MappingScenarios` | src/homebridgeAccessories/sensor.ts:171-207 | temperature in °F at 98.6 is written as 37; pm25 at 30 writes 30 and index 5; % with the water-percent icon maps to humidity; an unknown class with no usable unit is not mapped |
| `Sensor.FindService` | src/homebridgeAccessories/sensor.ts:215-217 | finds the first service of the kind, and none exactly when the accessory has no service of that kind |
| `Sensor.AddKindTwice` | src/homebridgeAccessories/sensor.ts:209-222 | find-or-create is idempotent; it leaves exactly one service of a kind that was absent and keeps the count of one already present |
| `Sensor.AddService` | src/homebridgeAccessories/sensor.ts:209-222 | returns the first existing service of the kind with the list unchanged; otherwise it appends exactly one fresh service of that kind, named after the component, with an empty subtype and no values, and returns it |
| `Sensor.DefaultSetup` | src/homebridgeAccessories/sensor.ts:224-241 | throws without a `sensorHomekit` and leaves the accessory alone; otherwise it finds or creates the service and installs a handler for the characteristic, with the Fahrenheit flag set exactly when the unit is °F |
| `Sensor.CarbonSetup` | src/homebridgeAccessories/sensor.ts:275-293 | finds or creates the gas service and installs a handler for its level, its detected flag and the threshold |
| `Sensor.Co2Setup` | src/homebridgeAccessories/sensor.ts:243-257 | carbon dioxide service and characteristics with `co2Threshold` |
| `Sensor.CoSetup` | src/homebridgeAccessories/sensor.ts:259-273 | carbon monoxide service and characteristics with `coThreshold` |
| `Sensor.AirQualityComponentSetup` | src/homebridgeAccessories/sensor.ts:305-327 | throws without a `sensorHomekit`; otherwise it finds or creates the single AirQualitySensor service and installs a handler for the entry's density |
| `Sensor.RunSetup` | src/homebridgeAccessories/sensor.ts:174-175 | runs the entry's own routine, or `defaultSetup` when it has none |
| `Sensor.SensorHelper` | src/homebridgeAccessories/sensor.ts:171-207 | never throws; returns true exactly for mappable components; leaves the accessory untouched when it returns false; otherwise installs the binding of the chosen entry on a found-or-created service |
| `Sensor.OnState` | src/homebridgeAccessories/sensor.ts:236-326 | a state event sets exactly the characteristic values `EventWrites` gives, and no others |
| `Platform.NormalizedConfig` | src/platform.ts:46-52 | afterwards there is a devices array or discovery is on; the configuration changes only when neither held, and then only `devices`, which becomes `[]` |
| `Platform.EsphomePlatform.constructor` | src/platform.ts:39-61 | the platform starts with the normalised configuration, no accessories and no host calls |
| `Platform.Excluded` | src/platform.ts:159-160 | excluded exactly when the type is in `excludedTypes` or the name is in `excludedNames`; absent lists exclude nothing |
| `Platform.FindAccessory` | src/platform.ts:150 | finds the first accessory with the UUID, and none exactly when no accessory has it |
| `Platform.RunComponentHelper` | src/platform.ts:157 | the helper's answer; for sensors, an unmappable component leaves the accessory's services unchanged, and a mappable one finds the entry's service (list unchanged) or appends exactly one fresh service of that kind after the old ones; other helpers leave the services alone |
| `Platform.AppendKeepsDistinct` | src/platform.ts:187-190 | appending an accessory with a new UUID keeps all UUIDs distinct |
| `Platform.EsphomePlatform.AccessoryUuidIdentity` | src/platform.ts:147 | the UUID depends only on the name followed by the key; components whose name and key concatenate to the same text, of any type, get the same UUID |
| `Platform.EsphomePlatform.AttachAccessory` | src/platform.ts:138-192 | with no helper, nothing changes. An unmapped or excluded component changes no accessory list; an existing accessory is unregistered but stays listed. A mapped, included new accessory is appended once and registered once. A mapped, included existing one is left alone. The helper runs before the exclusion check. Only the found accessory's services can change, and only under the sensor helper for a mappable component; there they are kept when a service of the entry's kind exists, and otherwise grow by exactly one fresh service of that kind. No UUID already present is appended, and distinct UUIDs stay distinct |
| `Platform.EsphomePlatform.ConfigureAccessory` | src/platform.ts:194-197 | appends exactly the given accessory |

## Left out

- Client and discovery connection setup, reconnect settings and event wiring (src/platform.ts:63-136): network I/O through a foreign library.
- Logging and message text, including `logIfDebug` and the messages built in `attachAccessory`: output only.
- `UUIDGen.generate` is an arbitrary function given to the constructor. `component.config.key.toString()` is represented by the key's text.
- Homebridge and HAP classes are reduced to what the core uses:
  - `getCharacteristic` is assumed always to yield the characteristic.
  - A new `Accessory` starts with no services. The host's automatic accessory-information service is not represented.
  - A service created by `addService` has the component's name and the default empty subtype.
- Component helpers other than `sensorHelper` are represented only by their boolean answer. In the model they do not change the accessory.
- Event-emitter mechanics: each `state` event is one `OnState` call on the handler a setup returned. When the same entity is attached again, the source adds another listener; the model does not track listeners per component. `attachAccessory` discards the handler `sensorHelper` returns, so the model does not follow events that reach an accessory through it. In the source, that listener stays installed even when the component is excluded and its accessory dropped or unregistered.
- Readings are exact reals, so IEEE-754 rounding is not represented (98.6 °F converts to exactly 37). NaN and ±Infinity are not represented either: a NaN reading compares like `undefined` in `<` and `>`, but `defaultSetup` would write NaN to the characteristic rather than `undefined`, and infinite readings would reach the bands and the Fahrenheit conversion unchanged.
- Configuration values of the wrong type are not represented:
  - thresholds are optional reals;
  - `devices` is either an array or not;
  - a device entry keeps only its host and exclusion lists.
- Peak-level tracking for carbon gases and unit conversion for pollutant densities: both are unimplemented TODOs in the source (src/homebridgeAccessories/sensor.ts:283, 311).
- Platform.EsphomePlatform.AttachAccessory: does not state the services of a newly created accessory; `SensorHelper`'s contract gives them, but that accessory is only reachable through `accessories` after the call.
