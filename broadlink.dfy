/**
 * The BroadLink hub: one type, "air-conditioner". Discovery starts only when
 * the configuration has a `broadlink` section; every device the discovery
 * library reports replaces the stored connection and reruns the configured
 * accessory pass.
 */
module BroadlinkHub {
  import opened Wrappers
  import opened Platform
  import opened BaseHub
  import opened Validation

  /** The `broadlink` configuration section. */
  datatype BroadlinkConfig = BroadlinkConfig(accessories: Option<seq<Entry>>)

  /** A device handle reported by the discovery library. */
  datatype RmDevice = RmDevice(model: string, host: string)

  const Mapping: map<string, Kind> := map["air-conditioner" := AirConditionerKind]

  class Broadlink {
    const hub: Hub
    const config: Option<BroadlinkConfig>
    var connection: Option<RmDevice>
    /** Hub discovery has been started, so hub events can arrive. */
    var listening: bool

    ghost predicate Valid()
      reads this
    {
      listening ==> config.Some?
    }

    constructor (platform: Platform, config: Option<BroadlinkConfig>)
      ensures Valid()
      ensures fresh(hub) && hub.platform == platform && hub.name == "BroadLink" && hub.mapping == Mapping
      ensures hub.discovered == [] && hub.bindings == []
      ensures this.config == config && connection == None
      ensures listening <==> config.Some?
    {
      hub := new Hub(platform, "BroadLink", Mapping);
      this.config := config;
      connection := None;
      listening := false;
      new;
      if config.Some? {
        DiscoverHubs();
      }
    }

    /** Start the discovery library; devices then arrive through HubDiscovered. */
    method DiscoverHubs()
      requires config.Some?
      modifies this`listening
      ensures Valid() && listening
    {
      listening := true;
    }

    /** Last write wins: the new device replaces the connection and a pass runs. */
    method HubDiscovered(device: RmDevice) returns (stop: Stop)
      requires Valid() && listening
      modifies this`connection, hub, hub.platform`registered, hub.platform`updated
      ensures Valid() && connection == Some(device)
      ensures hub.platform.accessories == old(hub.platform.accessories)
      ensures config.value.accessories.None? ==> stop == MissingAccessories && hub.Log() == old(hub.Log())
      ensures config.value.accessories.Some? ==>
        var entries := config.value.accessories.value;
        && stop == StopReason(entries, hub.mapping.Keys)
        && hub.Log() == DiscoverAll(hub.Context(), old(hub.Log()), Admitted(entries, hub.mapping.Keys))
    {
      connection := Some(device);
      stop := DiscoverDevices();
    }

    /**
     * One pass over the configured accessories: each admitted entry, copied by
     * transformDevice with no overrides, goes to deviceDiscovered; the first
     * invalid entry ends the pass.
     */
    method DiscoverDevices() returns (stop: Stop)
      requires config.Some?
      modifies hub, hub.platform`registered, hub.platform`updated
      ensures hub.platform.accessories == old(hub.platform.accessories)
      ensures config.value.accessories.None? ==> stop == MissingAccessories && hub.Log() == old(hub.Log())
      ensures config.value.accessories.Some? ==>
        var entries := config.value.accessories.value;
        && stop == StopReason(entries, hub.mapping.Keys)
        && hub.Log() == DiscoverAll(hub.Context(), old(hub.Log()), Admitted(entries, hub.mapping.Keys))
    {
      if config.value.accessories.None? {
        return MissingAccessories;
      }
      var entries := config.value.accessories.value;
      ghost var supported := hub.mapping.Keys;
      var i := 0;
      while i < |entries|
        invariant 0 <= i <= |entries|
        invariant hub.platform.accessories == old(hub.platform.accessories)
        invariant NoAbort(entries[..i], supported)
        invariant hub.Log() == DiscoverAll(hub.Context(), old(hub.Log()), Admitted(entries[..i], supported))
      {
        var accessory := entries[i];
        if accessory.None? || accessory.value.name == "" {
          HaltAt(entries, i, supported);
          return NoName;
        }
        if accessory.value.ignore {
          StepAt(entries, i, supported);
          assert Admitted(entries[..i + 1], supported) == Admitted(entries[..i], supported);
          i := i + 1;
          continue;
        }
        if accessory.value.typ == "" {
          HaltAt(entries, i, supported);
          return NoType(accessory.value.name);
        }
        if accessory.value.typ !in hub.mapping {
          HaltAt(entries, i, supported);
          return NotSupported(accessory.value.name);
        }
        StepAt(entries, i, supported);
        assert Check(accessory, supported) == Admit;
        DiscoverAllAppend(hub.Context(), old(hub.Log()), Admitted(entries[..i], supported), accessory.value);
        hub.DeviceDiscovered(TransformDevice(accessory.value, NoOverrides));
        i := i + 1;
      }
      assert entries[..i] == entries;
      AdmittedExtend(entries, None, supported);
      return Completed;
    }
  }
}
