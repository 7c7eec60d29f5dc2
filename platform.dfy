/**
 * The host side of the plugin: the accessory descriptor read from the
 * configuration (`PersonalAccessory`), the accessory object the host persists
 * (`PlatformAccessory`), and the platform, which holds the list of accessories
 * the host restored from its cache and records the register/update requests
 * made to the host API.
 *
 * JavaScript truthiness: a configuration field that is absent, `null` or the
 * empty string is falsy; the model writes every such field as the empty string.
 */
module Platform {

  /** Static device information (`info` of a PersonalAccessory). */
  datatype Info = Info(id: string, model: string, manufacturer: string)

  /** The vendor-side identity of a device (`external`). */
  datatype External = External(name: string, id: string)

  /** One configured accessory, `PersonalAccessory` in the source. */
  datatype Device = Device(
    name: string,
    typ: string,
    ignore: bool,
    info: Info,
    external: External,
    commands: map<string, string>)

  /** A host-persisted accessory: display name, UUID and `context.device`. */
  datatype PlatformAccessory = PlatformAccessory(displayName: string, uuid: string, device: Device)

  /**
   * The platform and the part of the host API the hubs use. `accessories` is the
   * list restored from the host's cache; only ConfigureAccessory appends to it.
   * `registered` and `updated` record the accessories handed to the host's
   * register and update calls, in call order.
   */
  class Platform {
    /** The host's deterministic UUID generator, treated as an unknown function. */
    const uuidOf: string -> string
    var accessories: seq<PlatformAccessory>
    var registered: seq<PlatformAccessory>
    var updated: seq<PlatformAccessory>

    constructor (uuidOf: string -> string)
      ensures this.uuidOf == uuidOf
      ensures accessories == [] && registered == [] && updated == []
    {
      this.uuidOf := uuidOf;
      accessories, registered, updated := [], [], [];
    }

    /** The host restores one cached accessory: it is appended to the list. */
    method ConfigureAccessory(accessory: PlatformAccessory)
      modifies this`accessories
      ensures accessories == old(accessories) + [accessory]
    {
      accessories := accessories + [accessory];
    }
  }
}
