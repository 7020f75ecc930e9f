/**
 * The sensor entity to HomeKit mapping of src/homebridgeAccessories/sensor.ts:
 * the device-class table, the orchestrator `sensorHelper` with its legacy
 * fallbacks, find-or-create of services, the three binders that install state
 * handlers, and the European air-quality index.
 */
module Sensor {
  import opened Wrappers
  import opened JsArrays
  import opened HomeKit
  import opened Esphome

  // ---------------------------------------------------------------------------
  // Units and JavaScript comparisons
  // ---------------------------------------------------------------------------

  const CelsiusUnit: string := "°C"
  const FahrenheitUnit: string := "°F"
  const PercentUnit: string := "%"
  const WaterPercentIcon: string := "mdi:water-percent"

  /**
   * `isTemperatureComponent`: the unit is exactly Celsius or exactly Fahrenheit,
   * that is, the degree sign followed by an upper-case C or F and nothing else.
   */
  predicate IsTemperatureComponent(unit: Option<string>)
    ensures IsTemperatureComponent(unit) <==>
      unit.Some? && |unit.value| == 2 && unit.value[0] == '°' && (unit.value[1] == 'C' || unit.value[1] == 'F')
  {
    assert unit.Some? && |unit.value| == 2 ==> unit.value == [unit.value[0], unit.value[1]];
    unit == Some(CelsiusUnit) || unit == Some(FahrenheitUnit)
  }

  function CelsiusToFahrenheit(celsius: real): real {
    celsius * 9.0 / 5.0 + 32.0
  }

  /** `fahrenheitToCelsius`, exact on reals: the inverse of the Celsius to Fahrenheit scale. */
  function FahrenheitToCelsius(fahrenheit: real): (celsius: real)
    ensures CelsiusToFahrenheit(celsius) == fahrenheit
  {
    (fahrenheit - 32.0) * 5.0 / 9.0
  }

  /** JavaScript `x < t` where `x` may be `undefined` (then the comparison is false). */
  predicate JsLess(x: Option<real>, t: real) {
    x.Some? && x.value < t
  }

  /** JavaScript `x > t` where `x` may be `undefined` (then the comparison is false). */
  predicate JsGreater(x: Option<real>, t: real) {
    x.Some? && x.value > t
  }

  /** `setValue(state.state!)`: the raw reading, `undefined` passed through. */
  function Raw(state: Option<real>): CharValue {
    match state
    case Some(v) => Num(v)
    case None => Undefined
  }

  // ---------------------------------------------------------------------------
  // The European air-quality index
  // ---------------------------------------------------------------------------

  /** The pollutants `europeanAQI` has bands for. */
  predicate IsIndexedPollutant(c: CharacteristicKind) {
    c in {PM2_5Density, PM10Density, OzoneDensity, NitrogenDioxideDensity, SulphurDioxideDensity}
  }

  /** Three strict upper bounds: below `t1` is 2, below `t2` is 3, below `t3` is 4, otherwise 5. */
  function Band(weight: Option<real>, t1: real, t2: real, t3: real): int {
    if JsLess(weight, t1) then 2
    else if JsLess(weight, t2) then 3
    else if JsLess(weight, t3) then 4
    else 5
  }

  /**
   * `europeanAQI`: the HomeKit air-quality level of one pollutant density. Level 1
   * ("Excellent") is never produced; characteristics without bands give 0.
   */
  function EuropeanAQI(characteristic: CharacteristicKind, weight: Option<real>): (level: int)
    ensures level in {0, 2, 3, 4, 5}
    ensures level == 0 <==> !IsIndexedPollutant(characteristic)
  {
    match characteristic
    case PM2_5Density => Band(weight, 10.0, 20.0, 25.0)
    case PM10Density => Band(weight, 20.0, 40.0, 50.0)
    case OzoneDensity => Band(weight, 50.0, 100.0, 130.0)
    case NitrogenDioxideDensity => Band(weight, 40.0, 90.0, 120.0)
    case SulphurDioxideDensity => Band(weight, 100.0, 200.0, 350.0)
    case _ => 0
  }

  /** Reference table of the European index: the concentrations at which the level goes up. */
  function AqiThresholds(c: CharacteristicKind): seq<real> {
    match c
    case PM2_5Density => [10.0, 20.0, 25.0]
    case PM10Density => [20.0, 40.0, 50.0]
    case OzoneDensity => [50.0, 100.0, 130.0]
    case NitrogenDioxideDensity => [40.0, 90.0, 120.0]
    case SulphurDioxideDensity => [100.0, 200.0, 350.0]
    case _ => []
  }

  /** How many of the thresholds `w` has reached (a threshold is reached when `w` equals it). */
  function Reached(thresholds: seq<real>, w: real): (n: nat)
    ensures n <= |thresholds|
  {
    if thresholds == [] then 0
    else (if thresholds[0] <= w then 1 else 0) + Reached(thresholds[1..], w)
  }

  lemma {:induction false} ReachedMonotone(thresholds: seq<real>, v: real, w: real)
    requires v <= w
    ensures Reached(thresholds, v) <= Reached(thresholds, w)
  {
    if thresholds != [] {
      ReachedMonotone(thresholds[1..], v, w);
    }
  }

  /** Three increasing thresholds split the line into four bands. */
  lemma ReachedOfThree(t1: real, t2: real, t3: real, w: real)
    requires t1 < t2 < t3
    ensures Reached([t1, t2, t3], w) == if w < t1 then 0 else if w < t2 then 1 else if w < t3 then 2 else 3
  {
    assert [t3][1..] == [];
    assert Reached([t3], w) == if t3 <= w then 1 else 0;
    assert [t2, t3][1..] == [t3];
    assert Reached([t2, t3], w) == (if t2 <= w then 1 else 0) + Reached([t3], w);
    assert [t1, t2, t3][1..] == [t2, t3];
    assert Reached([t1, t2, t3], w) == (if t1 <= w then 1 else 0) + Reached([t2, t3], w);
  }

  /** For a defined density, the index is 2 plus the number of band thresholds reached. */
  lemma AqiIsBandCount(c: CharacteristicKind, w: real)
    requires IsIndexedPollutant(c)
    ensures EuropeanAQI(c, Some(w)) == 2 + Reached(AqiThresholds(c), w)
  {
    var ts := AqiThresholds(c);
    ReachedOfThree(ts[0], ts[1], ts[2], w);
    assert ts == [ts[0], ts[1], ts[2]];
  }

  /** A higher density never yields a better (lower) index. */
  lemma AqiMonotone(c: CharacteristicKind, v: real, w: real)
    requires v <= w
    ensures EuropeanAQI(c, Some(v)) <= EuropeanAQI(c, Some(w))
  {
    if IsIndexedPollutant(c) {
      AqiIsBandCount(c, v);
      AqiIsBandCount(c, w);
      ReachedMonotone(AqiThresholds(c), v, w);
    }
  }

  /** Thresholds are strict: a density equal to a threshold lands in the higher band. */
  lemma AqiPm25Boundaries()
    ensures EuropeanAQI(PM2_5Density, Some(9.9)) == 2
    ensures EuropeanAQI(PM2_5Density, Some(10.0)) == 3
    ensures EuropeanAQI(PM2_5Density, Some(19.9)) == 3
    ensures EuropeanAQI(PM2_5Density, Some(24.9)) == 4
    ensures EuropeanAQI(PM2_5Density, Some(25.0)) == 5
    ensures EuropeanAQI(VOCDensity, Some(1000.0)) == 0
  {
  }

  /** An undefined density fails every `<` test, so it reports the worst level. */
  lemma AqiUndefinedIsWorst(c: CharacteristicKind)
    requires IsIndexedPollutant(c)
    ensures EuropeanAQI(c, None) == 5
  {
  }

  // ---------------------------------------------------------------------------
  // The device-class table
  // ---------------------------------------------------------------------------

  /** The specialised setup routines a table entry can name. */
  datatype SetupFunction = UseCo2Setup | UseCoSetup | UseAirQualityComponentSetup

  /** A service type together with the characteristic to write on it. */
  datatype SensorHomekit = SensorHomekit(characteristic: CharacteristicKind, service: ServiceKind)

  /** A table entry; an absent `setupFunction` means `defaultSetup`. */
  datatype SensorSetupMap = SensorSetupMap(setupFunction: Option<SetupFunction>, sensorHomekit: Option<SensorHomekit>)

  /** The twelve device classes the table knows, matched exactly. */
  const DeviceClasses: set<string> := {
    "aqi", "carbon_dioxide", "carbon_monoxide", "humidity", "illuminance", "nitrogen_dioxide",
    "ozone", "pm25", "pm10", "sulphur_dioxide", "temperature", "volatile_organic_compounds"
  }

  const TemperatureHomekit := SensorHomekit(CurrentTemperature, TemperatureSensor)
  const HumidityHomekit := SensorHomekit(CurrentRelativeHumidity, HumiditySensor)

  /** The table `map()` builds. */
  const SensorMap: map<string, SensorSetupMap> := map[
    "aqi" := SensorSetupMap(None, Some(SensorHomekit(AirQuality, AirQualitySensor))),
    "carbon_dioxide" := SensorSetupMap(Some(UseCo2Setup), None),
    "carbon_monoxide" := SensorSetupMap(Some(UseCoSetup), None),
    "humidity" := SensorSetupMap(None, Some(HumidityHomekit)),
    "illuminance" := SensorSetupMap(None, Some(SensorHomekit(CurrentAmbientLightLevel, LightSensor))),
    "nitrogen_dioxide" := SensorSetupMap(Some(UseAirQualityComponentSetup), Some(SensorHomekit(NitrogenDioxideDensity, AirQualitySensor))),
    "ozone" := SensorSetupMap(Some(UseAirQualityComponentSetup), Some(SensorHomekit(OzoneDensity, AirQualitySensor))),
    "pm25" := SensorSetupMap(Some(UseAirQualityComponentSetup), Some(SensorHomekit(PM2_5Density, AirQualitySensor))),
    "pm10" := SensorSetupMap(Some(UseAirQualityComponentSetup), Some(SensorHomekit(PM10Density, AirQualitySensor))),
    "sulphur_dioxide" := SensorSetupMap(Some(UseAirQualityComponentSetup), Some(SensorHomekit(SulphurDioxideDensity, AirQualitySensor))),
    "temperature" := SensorSetupMap(None, Some(TemperatureHomekit)),
    "volatile_organic_compounds" := SensorSetupMap(Some(UseAirQualityComponentSetup), Some(SensorHomekit(VOCDensity, AirQualitySensor)))
  ]

  /** The entries whose routine (`defaultSetup` or `airQualityComponentSetup`) throws without a `sensorHomekit`. */
  predicate NeedsHomekit(entry: SensorSetupMap) {
    entry.setupFunction.None? || entry.setupFunction == Some(UseAirQualityComponentSetup)
  }

  /**
   * `map().get(deviceClass)`: an exact, case-sensitive lookup; an undefined class
   * finds nothing. Every entry found is well formed: it never leaves a throwing
   * routine without its `sensorHomekit`.
   */
  function MapGet(deviceClass: Option<string>): (entry: Option<SensorSetupMap>)
    ensures entry.Some? <==> deviceClass.Some? && deviceClass.value in DeviceClasses
    ensures entry.Some? && NeedsHomekit(entry.value) ==> entry.value.sensorHomekit.Some?
  {
    match deviceClass
    case Some(dc) => if dc in SensorMap then Some(SensorMap[dc]) else None
    case None => None
  }

  // ---------------------------------------------------------------------------
  // What `sensorHelper` decides
  // ---------------------------------------------------------------------------

  /**
   * When `sensorHelper` maps a component: its class is a table key, or its unit is
   * exactly Celsius or Fahrenheit, or its unit is "%" with the water-percent icon.
   */
  predicate Mappable(c: ComponentConfig) {
    || (c.deviceClass.Some? && c.deviceClass.value in DeviceClasses)
    || c.unitOfMeasurement == Some(CelsiusUnit)
    || c.unitOfMeasurement == Some(FahrenheitUnit)
    || (c.unitOfMeasurement == Some(PercentUnit) && c.icon == Some(WaterPercentIcon))
  }

  /**
   * The entry `sensorHelper` hands to a setup routine: the table's, or else a
   * temperature or humidity entry chosen by the legacy unit and icon tests.
   */
  function Resolve(c: ComponentConfig): (entry: Option<SensorSetupMap>)
    ensures entry.Some? <==> Mappable(c)
    ensures entry.Some? && NeedsHomekit(entry.value) ==> entry.value.sensorHomekit.Some?
  {
    match MapGet(c.deviceClass)
    case Some(e) => Some(e)
    case None =>
      if IsTemperatureComponent(c.unitOfMeasurement) then
        Some(SensorSetupMap(None, Some(TemperatureHomekit)))
      else if c.unitOfMeasurement == Some(PercentUnit)
           && (c.icon == Some(WaterPercentIcon) || c.deviceClass == Some("humidity")) then
        Some(SensorSetupMap(None, Some(HumidityHomekit)))
      else
        None
  }

  /** The `deviceClass === 'humidity'` test of the fallback is dead: "humidity" is a table key. */
  lemma HumidityFallbackUnreachable(c: ComponentConfig)
    requires MapGet(c.deviceClass).None?
    ensures c.deviceClass != Some("humidity")
  {
  }

  // ---------------------------------------------------------------------------
  // Binders and state events
  // ---------------------------------------------------------------------------

  /** The handler a setup routine installs, as the data it closes over. */
  datatype Binder =
    | DefaultBinder(characteristic: CharacteristicKind, fahrenheit: bool)
    | CarbonBinder(level: CharacteristicKind, detected: CharacteristicKind, threshold: Option<real>)
    | AirQualityBinder(density: CharacteristicKind)

  /** The service kind a setup routine finds or creates, and the handler it installs. */
  datatype Binding = Binding(service: ServiceKind, binder: Binder)

  const DefaultSetupError: string := "defaultSetup requires a SensorHomekit argument."
  const AirQualitySetupError: string := "airQualityComponentSetup requires a SensorHomekit argument."

  /**
   * What running the routine of `entry` (`setupFunction || defaultSetup`) binds,
   * or the error it throws: only the two routines that need a `sensorHomekit`
   * throw, and only when it is missing.
   */
  function SetupBinding(entry: SensorSetupMap, component: Component, config: PlatformConfig): (r: Result<Binding, string>)
    ensures r.Err? <==> NeedsHomekit(entry) && entry.sensorHomekit.None?
  {
    match entry.setupFunction
    case None =>
      if entry.sensorHomekit.None? then Err(DefaultSetupError)
      else
        var hk := entry.sensorHomekit.value;
        Ok(Binding(hk.service, DefaultBinder(hk.characteristic, component.config.unitOfMeasurement == Some(FahrenheitUnit))))
    case Some(UseCo2Setup) =>
      Ok(Binding(CarbonDioxideSensor, CarbonBinder(CarbonDioxideLevel, CarbonDioxideDetected, config.co2Threshold)))
    case Some(UseCoSetup) =>
      Ok(Binding(CarbonMonoxideSensor, CarbonBinder(CarbonMonoxideLevel, CarbonMonoxideDetected, config.coThreshold)))
    case Some(UseAirQualityComponentSetup) =>
      if entry.sensorHomekit.None? then Err(AirQualitySetupError)
      else Ok(Binding(AirQualitySensor, AirQualityBinder(entry.sensorHomekit.value.characteristic)))
  }

  /** Whatever component `sensorHelper` maps, the routine it runs does not throw. */
  lemma SensorHelperNeverThrows(component: Component, config: PlatformConfig)
    requires Resolve(component.config).Some?
    ensures SetupBinding(Resolve(component.config).value, component, config).Ok?
  {
  }

  /**
   * The characteristic values one state event sets, by characteristic: the
   * characteristics a binder touches, and nothing else.
   */
  function EventWrites(b: Binder, state: Option<real>): (w: map<CharacteristicKind, CharValue>)
    ensures b.DefaultBinder? ==> w.Keys == {b.characteristic}
    ensures b.CarbonBinder? ==> w.Keys == if b.threshold.Some? then {b.level, b.detected} else {b.level}
    ensures b.AirQualityBinder? ==> w.Keys == {b.density, AirQuality}
  {
    match b
    case DefaultBinder(ch, fahrenheit) =>
      var celsiusValue := if fahrenheit && state.Some? then Num(FahrenheitToCelsius(state.value)) else Raw(state);
      map[ch := celsiusValue]
    case CarbonBinder(level, detected, threshold) =>
      var w := map[level := Raw(state)];
      if threshold.Some? then w[detected := Flag(JsGreater(state, threshold.value))] else w
    case AirQualityBinder(density) =>
      map[density := Raw(state)][AirQuality := Num(EuropeanAQI(density, state) as real)]
  }

  /** A Fahrenheit reading is written as the Celsius value it converts back from; anything else is written raw. */
  lemma DefaultEventValue(ch: CharacteristicKind, fahrenheit: bool, state: Option<real>)
    ensures var v := EventWrites(DefaultBinder(ch, fahrenheit), state)[ch];
      && (fahrenheit && state.Some? ==> v.Num? && CelsiusToFahrenheit(v.n) == state.value)
      && (!fahrenheit || state.None? ==> v == Raw(state))
  {
  }

  /** 32 °F is written as 0 and 212 °F as 100. */
  lemma FahrenheitFixedPoints(ch: CharacteristicKind)
    ensures EventWrites(DefaultBinder(ch, true), Some(32.0))[ch] == Num(0.0)
    ensures EventWrites(DefaultBinder(ch, true), Some(212.0))[ch] == Num(100.0)
    ensures EventWrites(DefaultBinder(ch, true), None)[ch] == Undefined
  {
  }

  /** With a threshold, "detected" is a strict `>`; it is false for an undefined reading. */
  lemma CarbonDetection(level: CharacteristicKind, detected: CharacteristicKind, t: real, state: Option<real>)
    requires level != detected
    ensures var w := EventWrites(CarbonBinder(level, detected, Some(t)), state);
      && w[level] == Raw(state)
      && w[detected] == Flag(state.Some? && state.value > t)
  {
  }

  /** Air-quality components write the raw density and the index derived from it. */
  lemma AirQualityEventValues(density: CharacteristicKind, state: Option<real>)
    requires density != AirQuality
    ensures var w := EventWrites(AirQualityBinder(density), state);
      && w[density] == Raw(state)
      && w[AirQuality] == Num(EuropeanAQI(density, state) as real)
  {
  }

  /** The threshold 800 example: 799 and 800 are not detected, 801 is. */
  lemma CarbonThreshold800()
    ensures EventWrites(CarbonBinder(CarbonDioxideLevel, CarbonDioxideDetected, Some(800.0)), Some(799.0))[CarbonDioxideDetected] == Flag(false)
    ensures EventWrites(CarbonBinder(CarbonDioxideLevel, CarbonDioxideDetected, Some(800.0)), Some(800.0))[CarbonDioxideDetected] == Flag(false)
    ensures EventWrites(CarbonBinder(CarbonDioxideLevel, CarbonDioxideDetected, Some(800.0)), Some(801.0))[CarbonDioxideDetected] == Flag(true)
    ensures CarbonDioxideDetected !in EventWrites(CarbonBinder(CarbonDioxideLevel, CarbonDioxideDetected, None), Some(801.0))
  {
  }

  /**
   * A handler always writes the same characteristics, so a later event
   * overwrites everything an earlier one wrote: repeating an event changes
   * nothing, and only the latest reading is visible.
   */
  lemma LatestEventWins(values: map<CharacteristicKind, CharValue>, b: Binder, earlier: Option<real>, later: Option<real>)
    ensures values + EventWrites(b, earlier) + EventWrites(b, later) == values + EventWrites(b, later)
  {
    var w1, w2 := EventWrites(b, earlier), EventWrites(b, later);
    assert w1.Keys == w2.Keys;
  }

  /** End-to-end examples: table or fallback entry, binding, and the values of one event. */
  lemma MappingScenarios(name: string, config: PlatformConfig)
    ensures var c := Component(name, "sensor", ComponentConfig(Some("temperature"), Some(FahrenheitUnit), None, "1"));
      && Resolve(c.config) == Some(SensorSetupMap(None, Some(TemperatureHomekit)))
      && SetupBinding(Resolve(c.config).value, c, config) == Ok(Binding(TemperatureSensor, DefaultBinder(CurrentTemperature, true)))
      && EventWrites(DefaultBinder(CurrentTemperature, true), Some(98.6)) == map[CurrentTemperature := Num(37.0)]
    ensures var c := Component(name, "sensor", ComponentConfig(Some("pm25"), None, None, "2"));
      && SetupBinding(Resolve(c.config).value, c, config) == Ok(Binding(AirQualitySensor, AirQualityBinder(PM2_5Density)))
      && EventWrites(AirQualityBinder(PM2_5Density), Some(30.0)) == map[PM2_5Density := Num(30.0), AirQuality := Num(5.0)]
    ensures var c := Component(name, "sensor", ComponentConfig(None, Some(PercentUnit), Some(WaterPercentIcon), "3"));
      && SetupBinding(Resolve(c.config).value, c, config) == Ok(Binding(HumiditySensor, DefaultBinder(CurrentRelativeHumidity, false)))
      && EventWrites(DefaultBinder(CurrentRelativeHumidity, false), Some(55.0)) == map[CurrentRelativeHumidity := Num(55.0)]
    ensures !Mappable(ComponentConfig(Some("Temperature"), Some("K"), None, "4"))
    ensures !Mappable(ComponentConfig(None, Some(PercentUnit), None, "5"))
  {
  }

  // ---------------------------------------------------------------------------
  // Find-or-create of services
  // ---------------------------------------------------------------------------

  /** `accessory.services.find(service => service.UUID === kind.UUID)` */
  function FindService(services: seq<HapService>, kind: ServiceKind): (r: Option<nat>)
    ensures r.None? <==> kind !in Kinds(services)
    ensures r.Some? ==> r.value < |services| && services[r.value].kind == kind
    ensures r.Some? ==> kind !in Kinds(services)[..r.value]
  {
    assert forall i :: 0 <= i < |services| ==> Kinds(services)[i] == services[i].kind;
    FindIndex(services, (s: HapService) => s.kind == kind)
  }

  /** The kinds after a find-or-create: unchanged when present, appended once otherwise. */
  function AddKind(kinds: seq<ServiceKind>, kind: ServiceKind): seq<ServiceKind> {
    if kind in kinds then kinds else kinds + [kind]
  }

  /** Find-or-create leaves exactly one service of the kind when there was none, and is idempotent. */
  lemma AddKindTwice(kinds: seq<ServiceKind>, kind: ServiceKind)
    ensures AddKind(AddKind(kinds, kind), kind) == AddKind(kinds, kind)
    ensures multiset(AddKind(kinds, kind))[kind] == if kind in kinds then multiset(kinds)[kind] else 1
  {
  }

  /**
   * The effect of `addService(accessory, kind)` for a component called `name`
   * returning `service`: a new service is named after the component, has an
   * empty subtype and no values yet.
   */
  twostate predicate ServiceAdded(accessory: Accessory, kind: ServiceKind, name: string, new service: HapService)
    reads accessory, service
  {
    var found := FindService(old(accessory.services), kind);
    && service.kind == kind
    && Kinds(accessory.services) == AddKind(Kinds(old(accessory.services)), kind)
    && (found.Some? ==> accessory.services == old(accessory.services) && service == old(accessory.services)[found.value])
    && (found.None? ==>
          && fresh(service) && accessory.services == old(accessory.services) + [service]
          && service.displayName == name && service.subtype == "" && service.values == map[])
  }

  /**
   * Find-or-create as the accessory sees it: unchanged when it already has a
   * service of the kind, otherwise one new service of that kind, named `name`,
   * appended after the old ones.
   */
  twostate predicate FoundOrCreated(accessory: Accessory, kind: ServiceKind, name: string)
    reads accessory
  {
    var before := old(accessory.services);
    if FindService(before, kind).Some? then accessory.services == before
    else
      && |accessory.services| == |before| + 1
      && accessory.services[..|before|] == before
      && fresh(accessory.services[|before|])
      && accessory.services[|before|].kind == kind
      && accessory.services[|before|].displayName == name
  }

  /** `addService`: the accessory's first service of this kind, or a new one appended. */
  method AddService(accessory: Accessory, kind: ServiceKind, name: string) returns (service: HapService)
    modifies accessory
    ensures ServiceAdded(accessory, kind, name, service)
  {
    var existing := FindService(accessory.services, kind);
    if existing.None? {
      var created := new HapService(kind, name, "");
      service := accessory.AddService(created);
      assert Kinds(accessory.services) == Kinds(old(accessory.services)) + [kind];
    } else {
      service := accessory.services[existing.value];
    }
  }

  // ---------------------------------------------------------------------------
  // Setup routines
  // ---------------------------------------------------------------------------

  /** An installed state handler: the service it writes to and what it writes. */
  datatype Handler = Handler(service: HapService, binder: Binder)

  /** A setup routine either installs a handler or throws. */
  datatype SetupResult = Installed(handler: Handler) | Thrown(message: string)

  /** The setup routine produced `r` as `expected` says, finding or creating the service first. */
  twostate predicate Performs(accessory: Accessory, name: string, new r: SetupResult, expected: Result<Binding, string>)
    reads accessory, if r.Installed? then {r.handler.service} else {}
  {
    match expected
    case Err(msg) => r == Thrown(msg) && accessory.services == old(accessory.services)
    case Ok(b) => r.Installed? && r.handler.binder == b.binder && ServiceAdded(accessory, b.service, name, r.handler.service)
  }

  /** `defaultSetup` */
  method DefaultSetup(component: Component, accessory: Accessory, sensorHomekit: Option<SensorHomekit>, config: PlatformConfig)
    returns (r: SetupResult)
    modifies accessory
    ensures Performs(accessory, component.name, r, SetupBinding(SensorSetupMap(None, sensorHomekit), component, config))
  {
    if sensorHomekit.None? {
      return Thrown(DefaultSetupError);
    }
    var hk := sensorHomekit.value;
    var existingService := AddService(accessory, hk.service, component.name);
    var valuesAreFahrenheit := component.config.unitOfMeasurement == Some(FahrenheitUnit);
    r := Installed(Handler(existingService, DefaultBinder(hk.characteristic, valuesAreFahrenheit)));
  }

  /** `carbonSetup` */
  method CarbonSetup(component: Component, accessory: Accessory, kind: ServiceKind,
                     level: CharacteristicKind, detected: CharacteristicKind, threshold: Option<real>)
    returns (r: SetupResult)
    modifies accessory
    ensures Performs(accessory, component.name, r, Ok(Binding(kind, CarbonBinder(level, detected, threshold))))
  {
    var service := AddService(accessory, kind, component.name);
    r := Installed(Handler(service, CarbonBinder(level, detected, threshold)));
  }

  /** `co2Setup`: carbon dioxide with `config.co2Threshold`. */
  method Co2Setup(component: Component, accessory: Accessory, sensorHomekit: Option<SensorHomekit>, config: PlatformConfig)
    returns (r: SetupResult)
    modifies accessory
    ensures Performs(accessory, component.name, r, SetupBinding(SensorSetupMap(Some(UseCo2Setup), sensorHomekit), component, config))
  {
    r := CarbonSetup(component, accessory, CarbonDioxideSensor, CarbonDioxideLevel, CarbonDioxideDetected, config.co2Threshold);
  }

  /** `coSetup`: carbon monoxide with `config.coThreshold`. */
  method CoSetup(component: Component, accessory: Accessory, sensorHomekit: Option<SensorHomekit>, config: PlatformConfig)
    returns (r: SetupResult)
    modifies accessory
    ensures Performs(accessory, component.name, r, SetupBinding(SensorSetupMap(Some(UseCoSetup), sensorHomekit), component, config))
  {
    r := CarbonSetup(component, accessory, CarbonMonoxideSensor, CarbonMonoxideLevel, CarbonMonoxideDetected, config.coThreshold);
  }

  /** `airQualityComponentSetup` */
  method AirQualityComponentSetup(component: Component, accessory: Accessory, sensorHomekit: Option<SensorHomekit>, config: PlatformConfig)
    returns (r: SetupResult)
    modifies accessory
    ensures Performs(accessory, component.name, r, SetupBinding(SensorSetupMap(Some(UseAirQualityComponentSetup), sensorHomekit), component, config))
  {
    if sensorHomekit.None? {
      return Thrown(AirQualitySetupError);
    }
    var characteristic := sensorHomekit.value.characteristic;
    var existingService := AddService(accessory, AirQualitySensor, component.name);
    r := Installed(Handler(existingService, AirQualityBinder(characteristic)));
  }

  /** Runs the routine of a table (or fallback) entry: `setupFunction || defaultSetup`. */
  method RunSetup(entry: SensorSetupMap, component: Component, accessory: Accessory, config: PlatformConfig)
    returns (r: SetupResult)
    modifies accessory
    ensures Performs(accessory, component.name, r, SetupBinding(entry, component, config))
  {
    match entry.setupFunction
    case None => r := DefaultSetup(component, accessory, entry.sensorHomekit, config);
    case Some(UseCo2Setup) => r := Co2Setup(component, accessory, entry.sensorHomekit, config);
    case Some(UseCoSetup) => r := CoSetup(component, accessory, entry.sensorHomekit, config);
    case Some(UseAirQualityComponentSetup) => r := AirQualityComponentSetup(component, accessory, entry.sensorHomekit, config);
  }

  // ---------------------------------------------------------------------------
  // The orchestrator
  // ---------------------------------------------------------------------------

  /** `sensorHelper`'s outcome: `true` with the installed handler, `false`, or an exception. */
  datatype SensorOutcome = Mapped(handler: Handler) | Unmapped | Threw(message: string)

  /**
   * `sensorHelper`: returns true exactly for mappable components, never throws,
   * leaves the accessory alone when it returns false, and otherwise installs the
   * handler its entry calls for on a found-or-created service.
   */
  method SensorHelper(component: Component, accessory: Accessory, config: PlatformConfig) returns (r: SensorOutcome)
    modifies accessory
    ensures !r.Threw?
    ensures r.Mapped? <==> Mappable(component.config)
    ensures r.Unmapped? ==> accessory.services == old(accessory.services)
    ensures r.Mapped? ==>
      var b := SetupBinding(Resolve(component.config).value, component, config);
      && b.Ok?
      && r.handler.binder == b.value.binder
      && ServiceAdded(accessory, b.value.service, component.name, r.handler.service)
  {
    var c := component.config;
    var homekitDevice := MapGet(c.deviceClass);
    var entry: SensorSetupMap;
    if homekitDevice.Some? {
      entry := homekitDevice.value;
    } else if IsTemperatureComponent(c.unitOfMeasurement) {
      // legacy entities without a device class: recognised by their unit
      entry := SensorSetupMap(None, Some(TemperatureHomekit));
    } else if c.unitOfMeasurement == Some(PercentUnit)
              && (c.icon == Some(WaterPercentIcon) || c.deviceClass == Some("humidity")) {
      entry := SensorSetupMap(None, Some(HumidityHomekit));
    } else {
      return Unmapped;
    }
    assert Resolve(c) == Some(entry);
    var setup := RunSetup(entry, component, accessory, config);
    match setup
    case Installed(h) => r := Mapped(h);
    case Thrown(msg) => r := Threw(msg);
  }

  /** One `state` event reaching an installed handler: it sets exactly the values `EventWrites` gives. */
  method OnState(handler: Handler, state: Option<real>)
    modifies handler.service
    ensures handler.service.values == old(handler.service.values) + EventWrites(handler.binder, state)
  {
    var service := handler.service;
    match handler.binder
    case DefaultBinder(characteristic, valuesAreFahrenheit) =>
      var celsiusValue := if valuesAreFahrenheit && state.Some? then Num(FahrenheitToCelsius(state.value)) else Raw(state);
      service.SetValue(characteristic, celsiusValue);
    case CarbonBinder(level, detected, threshold) =>
      service.SetValue(level, Raw(state));
      if threshold.Some? {
        service.SetValue(detected, Flag(JsGreater(state, threshold.value)));
      }
    case AirQualityBinder(density) =>
      service.SetValue(density, Raw(state));
      service.SetValue(AirQuality, Num(EuropeanAQI(density, state) as real));
  }
}
