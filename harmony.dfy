/**
 * The Harmony hub: types "light-controller" and "air-humidifer" (the key is
 * spelled so in the type table). Discovery needs a `harmony` section with a
 * port; a reported hub without an id is refused; an accepted hub replaces the
 * connection and starts an asynchronous device enumeration whose answer
 * arrives through DevicesDiscovered. Each admitted configured accessory is
 * matched by label against the enumerated devices.
 */
module HarmonyHub {
  import opened Wrappers
  import opened Platform
  import opened BaseHub
  import opened Validation

  /** The `harmony` section: `settings.port` (0 when absent) and the accessory list. */
  datatype HarmonyConfig = HarmonyConfig(port: int, accessories: Option<seq<Entry>>)

  /** A hub reported by the discovery library; `id` is empty when missing. */
  datatype HubInfo = HubInfo(id: string, ip: string)

  /** A device enumerated on the hub; `labelName` is its `label`, a word Dafny reserves. */
  datatype DiscoveredDevice = DiscoveredDevice(labelName: string, id: string)

  const Mapping: map<string, Kind> :=
    map["light-controller" := LedStripKind, "air-humidifer" := AirHumidifierKind]

  /** The last device in the list whose label is `labelName`. */
  function LastMatch(devices: seq<DiscoveredDevice>, labelName: string): (r: Option<DiscoveredDevice>)
    ensures r.None? <==> forall k :: 0 <= k < |devices| ==> devices[k].labelName != labelName
    ensures r.Some? ==> r.value.labelName == labelName
    ensures r.Some? ==> exists k :: 0 <= k < |devices| && devices[k] == r.value
                                 && forall j :: k < j < |devices| ==> devices[j].labelName != labelName
    decreases |devices|
  {
    if devices == [] then None
    else if devices[|devices| - 1].labelName == labelName then Some(devices[|devices| - 1])
    else LastMatch(devices[..|devices| - 1], labelName)
  }

  /** The inner loop of devicesDiscovered: later matches overwrite earlier ones. */
  method MatchLast(devices: seq<DiscoveredDevice>, labelName: string) returns (matched: Option<DiscoveredDevice>)
    ensures matched == LastMatch(devices, labelName)
  {
    matched := None;
    for i := 0 to |devices|
      invariant matched == LastMatch(devices[..i], labelName)
    {
      if devices[i].labelName == labelName {
        matched := Some(devices[i]);
      }
      assert devices[..i + 1][..i] == devices[..i];
    }
    assert devices[..|devices|] == devices;
  }

  /** Harmony's transformDevice: `external` becomes the matched device's label and id. */
  function Transform(accessory: Device, discovered: DiscoveredDevice): (r: Device)
    ensures r == TransformDevice(accessory, NoOverrides.(external := Some(External(discovered.labelName, discovered.id))))
    ensures r.(external := accessory.external) == accessory
  {
    accessory.(external := External(discovered.labelName, discovered.id))
  }

  /** What a pass hands to deviceDiscovered from the admitted entries: matched ones, transformed. */
  function Correlate(admitted: seq<Device>, devices: seq<DiscoveredDevice>): seq<Device>
    decreases |admitted|
  {
    if admitted == [] then []
    else
      var d := admitted[|admitted| - 1];
      Correlate(admitted[..|admitted| - 1], devices)
        + match LastMatch(devices, d.external.name)
          case None => []
          case Some(m) => [Transform(d, m)]
  }

  lemma CorrelateAppend(admitted: seq<Device>, d: Device, devices: seq<DiscoveredDevice>)
    ensures Correlate(admitted + [d], devices) == Correlate(admitted, devices)
      + match LastMatch(devices, d.external.name)
        case None => []
        case Some(m) => [Transform(d, m)]
  {
  }

  /**
   * An entry with no matching device is only skipped: unlike a validation
   * failure, the entries after it are still handed on.
   */
  lemma {:induction false} UnmatchedIsSkipped(before: seq<Device>, d: Device, after: seq<Device>, devices: seq<DiscoveredDevice>)
    requires LastMatch(devices, d.external.name).None?
    ensures Correlate(before + [d] + after, devices) == Correlate(before, devices) + Correlate(after, devices)
    decreases |after|
  {
    if after == [] {
      assert before + [d] + after == before + [d];
      CorrelateAppend(before, d, devices);
    } else {
      var init := after[..|after| - 1];
      var last := after[|after| - 1];
      assert before + [d] + after == (before + [d] + init) + [last];
      assert init + [last] == after;
      CorrelateAppend(before + [d] + init, last, devices);
      CorrelateAppend(init, last, devices);
      UnmatchedIsSkipped(before, d, init, devices);
    }
  }

  /**
   * `r` is entry `admitted[i]` for some `i` with only its external id changed,
   * and its `external` is the label and id of an enumerated device.
   */
  ghost predicate DerivedFrom(r: Device, admitted: seq<Device>, devices: seq<DiscoveredDevice>) {
    && (exists i :: 0 <= i < |admitted| && r.(external := admitted[i].external) == admitted[i]
          && r.external.name == admitted[i].external.name)
    && (exists m :: m in devices && r.external == External(m.labelName, m.id))
  }

  /** Every device a Harmony pass hands on is derived from an admitted entry and an enumerated device. */
  lemma {:induction false} CorrelatedAreDerived(admitted: seq<Device>, devices: seq<DiscoveredDevice>)
    ensures forall r :: r in Correlate(admitted, devices) ==> DerivedFrom(r, admitted, devices)
    decreases |admitted|
  {
    if admitted != [] {
      var init := admitted[..|admitted| - 1];
      var d := admitted[|admitted| - 1];
      CorrelatedAreDerived(init, devices);
      forall r | r in Correlate(admitted, devices)
        ensures DerivedFrom(r, admitted, devices)
      {
        if r in Correlate(init, devices) {
          assert DerivedFrom(r, init, devices);
          var i :| 0 <= i < |init| && r.(external := init[i].external) == init[i]
            && r.external.name == init[i].external.name;
          assert admitted[i] == init[i];
        } else {
          var m := LastMatch(devices, d.external.name).value;
          assert r == Transform(d, m);
          assert admitted[|admitted| - 1] == d;
          var j :| 0 <= j < |devices| && devices[j] == m;
          assert m in devices;
        }
      }
    }
  }

  class Harmony {
    const hub: Hub
    const config: Option<HarmonyConfig>
    var connection: Option<HubInfo>
    /** Hub discovery has been started, so hub events can arrive. */
    var listening: bool
    /** Hubs whose device enumeration was started, in order; answers arrive via DevicesDiscovered. */
    var enumerations: seq<HubInfo>

    ghost predicate Valid()
      reads this
    {
      && (listening ==> config.Some? && config.value.port != 0)
      && (enumerations != [] ==> config.Some? && config.value.accessories.Some?)
    }

    /** Without a `harmony` section nothing starts; otherwise hub discovery is attempted. */
    constructor (platform: Platform, config: Option<HarmonyConfig>)
      ensures Valid()
      ensures fresh(hub) && hub.platform == platform && hub.name == "Harmony" && hub.mapping == Mapping
      ensures hub.discovered == [] && hub.bindings == []
      ensures this.config == config && connection == None && enumerations == []
      ensures listening <==> config.Some? && config.value.port != 0
    {
      hub := new Hub(platform, "Harmony", Mapping);
      this.config := config;
      connection := None;
      listening := false;
      enumerations := [];
      new;
      if config.Some? {
        DiscoverHubs();
      }
    }

    /** A missing port ends discovery before it starts. */
    method DiscoverHubs()
      requires Valid() && config.Some?
      modifies this`listening
      ensures Valid()
      ensures listening == (old(listening) || config.value.port != 0)
    {
      if config.value.port == 0 {
        return;
      }
      listening := true;
    }

    /** A hub without an id is refused; any other replaces the connection (last write wins). */
    method HubDiscovered(h: HubInfo)
      requires Valid() && listening
      modifies this`connection, this`enumerations
      ensures Valid()
      ensures h.id == "" ==> connection == old(connection) && enumerations == old(enumerations)
      ensures h.id != "" ==> && connection == Some(h)
                             && enumerations == old(enumerations) + (if config.value.accessories.Some? then [h] else [])
    {
      if h.id == "" {
        return;
      }
      connection := Some(h);
      DiscoverDevices();
    }

    /** Without an accessory list nothing is enumerated; otherwise the hub's devices are requested. */
    method DiscoverDevices()
      requires Valid() && config.Some? && connection.Some?
      modifies this`enumerations
      ensures Valid()
      ensures enumerations == old(enumerations)
        + (if config.value.accessories.Some? then [connection.value] else [])
    {
      if config.value.accessories.None? {
        return;
      }
      enumerations := enumerations + [connection.value];
    }

    /**
     * The answer to an enumeration: one pass over the configured accessories.
     * Validation failures end the pass; an admitted entry is matched by label
     * and handed on transformed, or skipped when nothing matches.
     */
    method DevicesDiscovered(devices: seq<DiscoveredDevice>) returns (stop: Stop)
      requires Valid() && enumerations != []
      modifies hub, hub.platform`registered, hub.platform`updated
      ensures hub.platform.accessories == old(hub.platform.accessories)
      ensures var entries := config.value.accessories.value;
        && stop == StopReason(entries, hub.mapping.Keys)
        && hub.Log() == DiscoverAll(hub.Context(), old(hub.Log()),
                                    Correlate(Admitted(entries, hub.mapping.Keys), devices))
    {
      var entries := config.value.accessories.value;
      ghost var supported := hub.mapping.Keys;
      var i := 0;
      while i < |entries|
        invariant 0 <= i <= |entries|
        invariant hub.platform.accessories == old(hub.platform.accessories)
        invariant NoAbort(entries[..i], supported)
        invariant hub.Log() == DiscoverAll(hub.Context(), old(hub.Log()),
                                           Correlate(Admitted(entries[..i], supported), devices))
      {
        var accessory := entries[i];
        if accessory.None? || accessory.value.name == "" {
          HaltAt(entries, i, supported);
          return NoName;
        }
        if accessory.value.ignore {
          StepAt(entries, i, supported);
          assert Admitted(entries[..i + 1], supported) == Admitted(entries[..i], supported);
          i := i + 1;
          continue;
        }
        if accessory.value.typ == "" {
          HaltAt(entries, i, supported);
          return NoType(accessory.value.name);
        }
        if accessory.value.typ !in hub.mapping {
          HaltAt(entries, i, supported);
          return NotSupported(accessory.value.name);
        }
        StepAt(entries, i, supported);
        assert Check(accessory, supported) == Admit;
        CorrelateAppend(Admitted(entries[..i], supported), accessory.value, devices);
        var matched := MatchLast(devices, accessory.value.external.name);
        if matched.Some? {
          DiscoverAllAppend(hub.Context(), old(hub.Log()),
            Correlate(Admitted(entries[..i], supported), devices), Transform(accessory.value, matched.value));
          hub.DeviceDiscovered(Transform(accessory.value, matched.value));
        } else {
          assert Correlate(Admitted(entries[..i + 1], supported), devices)
            == Correlate(Admitted(entries[..i], supported), devices);
        }
        i := i + 1;
      }
      assert entries[..i] == entries;
      AdmittedExtend(entries, None, supported);
      return Completed;
    }
  }
}
