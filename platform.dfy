/**
 * The accessory bookkeeping of src/platform.ts: the device-list normalisation
 * done by the `EsphomePlatform` constructor, `attachAccessory` (look up or
 * create the accessory, run the component helper, apply the exclusion lists,
 * then register, unregister or leave alone) and `configureAccessory`.
 */
module Platform {
  import opened Wrappers
  import opened JsArrays
  import opened HomeKit
  import opened Esphome
  import Sensor

  /**
   * An entry of `componentHelpers`: `sensorHelper`, or the helper of another
   * component type, known only through whether it maps a component.
   */
  datatype ComponentHelper = SensorComponentHelper | OtherComponentHelper(maps: Component -> bool)

  /** Whether a helper reports the component as mapped. */
  function HelperMaps(helper: ComponentHelper, component: Component): bool {
    match helper
    case SensorComponentHelper => Sensor.Mappable(component.config)
    case OtherComponentHelper(maps) => maps(component)
  }

  /** A call into the host: `registerPlatformAccessories` or `unregisterPlatformAccessories`. */
  datatype ApiCall = RegisterPlatformAccessories(accessory: Accessory) | UnregisterPlatformAccessories(accessory: Accessory)

  /**
   * The constructor's normalisation: with no devices array and discovery off,
   * `devices` becomes the empty array; otherwise the configuration is untouched.
   */
  function NormalizedConfig(config: PlatformConfig): (r: PlatformConfig)
    ensures r.devices.DevicesArray? || Truthy(r.discover)
    ensures r == config <==> config.devices.DevicesArray? || Truthy(config.discover)
    ensures r != config ==> r == config.(devices := DevicesArray([]))
  {
    if !config.devices.DevicesArray? && !Truthy(config.discover) then config.(devices := DevicesArray([]))
    else config
  }

  /**
   * The exclusion test: exact membership of the component's type in
   * `excludedTypes` or of its name in `excludedNames`; absent lists are empty.
   */
  function Excluded(deviceConfig: DeviceConfig, component: Component): (r: bool)
    ensures r <==> (component.componentType in deviceConfig.excludedTypes.GetOr([])
                    || component.name in deviceConfig.excludedNames.GetOr([]))
    ensures deviceConfig.excludedTypes.None? && deviceConfig.excludedNames.None? ==> !r
  {
    var ignoreType := IndexOf(deviceConfig.excludedTypes.GetOr([]), component.componentType) >= 0;
    var ignoreName := IndexOf(deviceConfig.excludedNames.GetOr([]), component.name) >= 0;
    ignoreType || ignoreName
  }

  /** The UUIDs of a list of accessories, in order. */
  function Uuids(accessories: seq<Accessory>): seq<string>
  {
    seq(|accessories|, i requires 0 <= i < |accessories| => accessories[i].uuid)
  }

  /** `accessories.find(accessory => accessory.UUID === uuid)` */
  function FindAccessory(accessories: seq<Accessory>, uuid: string): (r: Option<nat>)
    ensures r.None? <==> uuid !in Uuids(accessories)
    ensures r.Some? ==> r.value < |accessories| && accessories[r.value].uuid == uuid
    ensures r.Some? ==> uuid !in Uuids(accessories)[..r.value]
  {
    assert forall i :: 0 <= i < |accessories| ==> Uuids(accessories)[i] == accessories[i].uuid;
    FindIndex(accessories, (a: Accessory) => a.uuid == uuid)
  }

  /** No two accessories share a UUID. */
  ghost predicate DistinctUuids(accessories: seq<Accessory>) {
    forall i, j :: 0 <= i < j < |accessories| ==> accessories[i].uuid != accessories[j].uuid
  }

  /** Appending an accessory whose UUID is new keeps the UUIDs distinct. */
  lemma AppendKeepsDistinct(accessories: seq<Accessory>, accessory: Accessory)
    requires DistinctUuids(accessories)
    requires accessory.uuid !in Uuids(accessories)
    ensures DistinctUuids(accessories + [accessory])
  {
    var all := accessories + [accessory];
    forall i, j | 0 <= i < j < |all| ensures all[i].uuid != all[j].uuid {
      if j == |accessories| {
        assert Uuids(accessories)[i] == all[i].uuid;
      }
    }
  }

  /**
   * `componentHelper(component, accessory, config)`: `sensorHelper` finds or
   * creates the service its entry calls for when the component is mappable and
   * leaves the accessory alone otherwise; other helpers are not modelled beyond
   * their answer.
   */
  method RunComponentHelper(helper: ComponentHelper, component: Component, accessory: Accessory, config: PlatformConfig)
    returns (mapped: bool)
    modifies accessory
    ensures mapped == HelperMaps(helper, component)
    ensures helper.OtherComponentHelper? ==> accessory.services == old(accessory.services)
    ensures helper.SensorComponentHelper? ==>
      Kinds(accessory.services) ==
        if Sensor.Mappable(component.config)
        then Sensor.AddKind(old(Kinds(accessory.services)), Sensor.SetupBinding(Sensor.Resolve(component.config).value, component, config).value.service)
        else old(Kinds(accessory.services))
    ensures helper.SensorComponentHelper? && !Sensor.Mappable(component.config) ==>
      accessory.services == old(accessory.services)
    ensures helper.SensorComponentHelper? && Sensor.Mappable(component.config) ==>
      Sensor.FoundOrCreated(accessory, Sensor.SetupBinding(Sensor.Resolve(component.config).value, component, config).value.service, component.name)
  {
    match helper
    case SensorComponentHelper =>
      var outcome := Sensor.SensorHelper(component, accessory, config);
      mapped := outcome.Mapped?;
    case OtherComponentHelper(maps) =>
      mapped := maps(component);
  }

  class EsphomePlatform {
    var config: PlatformConfig
    /** `this.accessories`: cached accessories and the ones this platform registered. */
    var accessories: seq<Accessory>
    /** The register / unregister calls made so far, in order. */
    var apiCalls: seq<ApiCall>
    /** `componentHelpers`, by component type. */
    const componentHelpers: map<string, ComponentHelper>
    /** `UUIDGen.generate` */
    const uuidGenerate: string -> string

    constructor (config: PlatformConfig, componentHelpers: map<string, ComponentHelper>, uuidGenerate: string -> string)
      ensures this.config == NormalizedConfig(config)
      ensures accessories == [] && apiCalls == []
      ensures this.componentHelpers == componentHelpers && this.uuidGenerate == uuidGenerate
    {
      this.config := config;
      this.componentHelpers := componentHelpers;
      this.uuidGenerate := uuidGenerate;
      accessories := [];
      apiCalls := [];
      if !config.devices.DevicesArray? && !Truthy(config.discover) {
        this.config := config.(devices := DevicesArray([]));
      }
    }

    /** The UUID of a component's accessory: generated from its name followed by its key. */
    function AccessoryUuid(component: Component): string {
      uuidGenerate(component.name + component.config.key)
    }

    /**
     * The UUID depends on the name and the key alone, and only through their
     * concatenation: the type and the other attributes play no part, and a name
     * ending in a digit can meet another component's name and key in the same
     * text ("s1" with key "23" and "s12" with key "3"), so both share one accessory.
     */
    lemma AccessoryUuidIdentity(c1: Component, c2: Component)
      ensures c1.name + c1.config.key == c2.name + c2.config.key ==> AccessoryUuid(c1) == AccessoryUuid(c2)
      ensures var a := Component("s1", "sensor", ComponentConfig(None, None, None, "23"));
              var b := Component("s12", "switch", ComponentConfig(None, None, None, "3"));
              AccessoryUuid(a) == AccessoryUuid(b)
    {
      assert "s1" + "23" == "s12" + "3";
    }

    /**
     * `attachAccessory`. Without a helper for the type nothing happens. Otherwise
     * the accessory with the component's UUID is reused, or a new one is made, and
     * the helper runs on it; a component that is unmapped or excluded is dropped
     * (an existing accessory is unregistered but stays in `accessories`); a mapped,
     * included, new accessory is appended and registered once; an existing one is
     * left as it is.
     */
    method AttachAccessory(component: Component, deviceConfig: DeviceConfig)
      modifies this`accessories, this`apiCalls, accessories
      ensures component.componentType !in componentHelpers ==>
        && accessories == old(accessories) && apiCalls == old(apiCalls)
        && forall a :: a in old(accessories) ==> a.services == old(a.services)
      ensures component.componentType in componentHelpers ==>
        var existing := FindAccessory(old(accessories), AccessoryUuid(component));
        forall a :: a in old(accessories) && (existing.None? || a != old(accessories)[existing.value]) ==>
          a.services == old(a.services)
      ensures component.componentType in componentHelpers
              && componentHelpers[component.componentType].OtherComponentHelper? ==>
        forall a :: a in old(accessories) ==> a.services == old(a.services)
      ensures component.componentType in componentHelpers ==>
        var existing := FindAccessory(old(accessories), AccessoryUuid(component));
        var accepted := HelperMaps(componentHelpers[component.componentType], component) && !Excluded(deviceConfig, component);
        && (!accepted ==>
              && accessories == old(accessories)
              && apiCalls == old(apiCalls) + (if existing.Some? then [UnregisterPlatformAccessories(old(accessories)[existing.value])] else []))
        && (accepted && existing.Some? ==>
              accessories == old(accessories) && apiCalls == old(apiCalls))
        && (accepted && existing.None? ==>
              && |accessories| == |old(accessories)| + 1
              && accessories[..|old(accessories)|] == old(accessories)
              && fresh(accessories[|old(accessories)|])
              && accessories[|old(accessories)|].uuid == AccessoryUuid(component)
              && accessories[|old(accessories)|].displayName == component.name
              && apiCalls == old(apiCalls) + [RegisterPlatformAccessories(accessories[|old(accessories)|])])
      ensures component.componentType in componentHelpers
              && componentHelpers[component.componentType].SensorComponentHelper? ==>
        var existing := FindAccessory(old(accessories), AccessoryUuid(component));
        existing.Some? ==>
          var accessory := old(accessories)[existing.value];
          Kinds(accessory.services) ==
            if Sensor.Mappable(component.config)
            then Sensor.AddKind(old(Kinds(accessory.services)), Sensor.SetupBinding(Sensor.Resolve(component.config).value, component, config).value.service)
            else old(Kinds(accessory.services))
      ensures component.componentType in componentHelpers
              && componentHelpers[component.componentType].SensorComponentHelper?
              && !Sensor.Mappable(component.config) ==>
        forall a :: a in old(accessories) ==> a.services == old(a.services)
      ensures component.componentType in componentHelpers
              && componentHelpers[component.componentType].SensorComponentHelper?
              && Sensor.Mappable(component.config) ==>
        var existing := FindAccessory(old(accessories), AccessoryUuid(component));
        existing.Some? ==>
          Sensor.FoundOrCreated(old(accessories)[existing.value],
            Sensor.SetupBinding(Sensor.Resolve(component.config).value, component, config).value.service, component.name)
      ensures |accessories| > |old(accessories)| ==> accessories[|old(accessories)|].uuid !in Uuids(old(accessories))
      ensures DistinctUuids(old(accessories)) ==> DistinctUuids(accessories)
    {
      if component.componentType !in componentHelpers {
        return;
      }
      var componentHelper := componentHelpers[component.componentType];
      var uuid := AccessoryUuid(component);
      var newAccessory := false;

      var found := FindAccessory(accessories, uuid);
      var accessory: Accessory;
      if found.None? {
        accessory := new Accessory(component.name, uuid);
        newAccessory := true;
      } else {
        accessory := accessories[found.value];
      }

      var mappedComponent := RunComponentHelper(componentHelper, component, accessory, config);

      var ignoreType := IndexOf(deviceConfig.excludedTypes.GetOr([]), component.componentType) >= 0;
      var ignoreName := IndexOf(deviceConfig.excludedNames.GetOr([]), component.name) >= 0;

      if !mappedComponent || ignoreName || ignoreType {
        if !newAccessory {
          apiCalls := apiCalls + [UnregisterPlatformAccessories(accessory)];
        }
        return;
      }

      if !newAccessory {
        return;
      }
      if DistinctUuids(accessories) {
        AppendKeepsDistinct(accessories, accessory);
      }
      accessories := accessories + [accessory];
      apiCalls := apiCalls + [RegisterPlatformAccessories(accessory)];
    }

    /** `configureAccessory`: a cached accessory is appended as given. */
    method ConfigureAccessory(accessory: Accessory)
      modifies this`accessories
      ensures accessories == old(accessories) + [accessory]
    {
      accessories := accessories + [accessory];
    }
  }
}
