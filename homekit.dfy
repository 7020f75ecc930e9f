/**
 * The slice of Homebridge / HAP that the sensor mapping touches: the service and
 * characteristic kinds it uses, the values a characteristic can hold, and the
 * two host objects it mutates (a service's characteristic values and an
 * accessory's list of services).
 */
module HomeKit {

  /** The service types the sensor mapping can expose; equality of kinds is equality of service UUIDs. */
  datatype ServiceKind =
    | AirQualitySensor
    | CarbonDioxideSensor
    | CarbonMonoxideSensor
    | HumiditySensor
    | LightSensor
    | TemperatureSensor

  /** The characteristic types the sensor mapping can write. */
  datatype CharacteristicKind =
    | AirQuality
    | CarbonDioxideLevel
    | CarbonDioxideDetected
    | CarbonMonoxideLevel
    | CarbonMonoxideDetected
    | CurrentAmbientLightLevel
    | CurrentRelativeHumidity
    | CurrentTemperature
    | NitrogenDioxideDensity
    | OzoneDensity
    | PM10Density
    | PM2_5Density
    | SulphurDioxideDensity
    | VOCDensity

  /** What `setValue` may be handed: `undefined`, a number or a boolean. */
  datatype CharValue = Undefined | Num(n: real) | Flag(b: bool)

  /** A service instance on an accessory; `values` holds the last value set on each characteristic. */
  class HapService {
    const kind: ServiceKind
    const displayName: string
    const subtype: string
    var values: map<CharacteristicKind, CharValue>

    /** `new SuppliedService(name, subtype)` */
    constructor (kind: ServiceKind, displayName: string, subtype: string)
      ensures this.kind == kind && this.displayName == displayName && this.subtype == subtype
      ensures values == map[]
    {
      this.kind := kind;
      this.displayName := displayName;
      this.subtype := subtype;
      values := map[];
    }

    /** `getCharacteristic(c).setValue(v)`: only characteristic `c` changes. */
    method SetValue(c: CharacteristicKind, v: CharValue)
      modifies this
      ensures values == old(values)[c := v]
    {
      values := values[c := v];
    }
  }

  /** A platform accessory: a stable UUID and the services it exposes, in order. */
  class Accessory {
    const displayName: string
    const uuid: string
    var services: seq<HapService>

    /** `new Accessory(name, uuid)` */
    constructor (displayName: string, uuid: string)
      ensures this.displayName == displayName && this.uuid == uuid
      ensures services == []
    {
      this.displayName := displayName;
      this.uuid := uuid;
      services := [];
    }

    /** `accessory.addService(service)`: appends the service and hands it back. */
    method AddService(service: HapService) returns (added: HapService)
      modifies this
      ensures services == old(services) + [service]
      ensures added == service
    {
      services := services + [service];
      added := service;
    }
  }

  /** The service kinds of a service list, in order. */
  function Kinds(services: seq<HapService>): seq<ServiceKind>
  {
    seq(|services|, i requires 0 <= i < |services| => services[i].kind)
  }
}
