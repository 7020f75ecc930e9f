/**
 * What the core reads from the outside: an ESPHome entity ("component") as the
 * native API client reports it, and the plugin's platform and per-device
 * configuration.
 */
module Esphome {
  import opened Wrappers

  /**
   * `component.config`. Every optional attribute may be `undefined`; `key` stands
   * for the text `component.config.key.toString()` yields.
   */
  datatype ComponentConfig = ComponentConfig(
    deviceClass: Option<string>,
    unitOfMeasurement: Option<string>,
    icon: Option<string>,
    key: string)

  /** An entity: its name, its `type` ("sensor", "switch", ...) and its configuration. */
  datatype Component = Component(name: string, componentType: string, config: ComponentConfig)

  /** One entry of `config.devices`; only the fields the core reads. */
  datatype DeviceConfig = DeviceConfig(
    host: string,
    excludedTypes: Option<seq<string>>,
    excludedNames: Option<seq<string>>)

  /** The value found in `config.devices`: an array, or anything else (`undefined` included). */
  datatype Devices = DevicesArray(list: seq<DeviceConfig>) | NotAnArray

  /** The platform configuration; only the fields the core reads. */
  datatype PlatformConfig = PlatformConfig(
    devices: Devices,
    discover: Option<bool>,
    coThreshold: Option<real>,
    co2Threshold: Option<real>)

  /** JavaScript truthiness of an optional boolean. */
  predicate Truthy(b: Option<bool>) {
    b == Some(true)
  }
}
