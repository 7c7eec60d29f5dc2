/**
 * The hub base class: accessory reconciliation. For every discovered device a
 * hub looks up the controller class for the device's type, derives a UUID
 * from the device's stable identity, and either rebinds a controller to the
 * accessory the host restored with that UUID or creates and registers a new
 * accessory.
 *
 * The effect of reconciliation is written once as pure functions over a
 * `Ledger` (what has been discovered, bound, updated and registered), and the
 * `Hub` class's methods are proved to change its state exactly as those
 * functions say.
 */
module BaseHub {
  import opened Wrappers
  import opened Platform

  /** The controller classes an `accessoryMapping` table can name. */
  datatype Kind = AirConditionerKind | LedStripKind | AirHumidifierKind

  /** One `new deviceClass(platform, hub, accessory)`: a controller bound to an accessory. */
  datatype Binding = Binding(kind: Kind, accessory: PlatformAccessory)

  /** What one call of registerDevice did. */
  datatype Registration =
    | Threw                                   // the device was null: reading its type throws
    | Unsupported(typ: string)                // no controller for the type: logged, nothing else
    | Restored(accessory: PlatformAccessory)  // rebound to a cached accessory, host asked to update it
    | Added(accessory: PlatformAccessory)     // a new accessory, host asked to register it

  /** The observable history of a hub and the host calls it made. */
  datatype Ledger = Ledger(
    discovered: seq<Device>,
    bindings: seq<Binding>,
    updated: seq<PlatformAccessory>,
    registered: seq<PlatformAccessory>)

  /** What reconciliation reads: the restored list, the UUID generator, the type table. */
  datatype Ctx = Ctx(restored: seq<PlatformAccessory>, uuidOf: string -> string, mapping: map<string, Kind>)

  /** Field overrides for transformDevice; `None` leaves the field as it is. */
  datatype Overrides = Overrides(
    name: Option<string>,
    typ: Option<string>,
    ignore: Option<bool>,
    info: Option<Info>,
    external: Option<External>,
    commands: Option<map<string, string>>)

  /** The default `extra = {}`. */
  const NoOverrides: Overrides := Overrides(None, None, None, None, None, None)

  /** `{ ...device, ...extra }`: every field of `extra` that is present wins. */
  function TransformDevice(d: Device, extra: Overrides): (r: Device)
    ensures extra == NoOverrides ==> r == d
    ensures extra.name.Some? ==> r.name == extra.name.value
    ensures extra.typ.Some? ==> r.typ == extra.typ.value
    ensures extra.ignore.Some? ==> r.ignore == extra.ignore.value
    ensures extra.info.Some? ==> r.info == extra.info.value
    ensures extra.external.Some? ==> r.external == extra.external.value
    ensures extra.commands.Some? ==> r.commands == extra.commands.value
    ensures r.name != d.name ==> extra.name == Some(r.name)
    ensures r.typ != d.typ ==> extra.typ == Some(r.typ)
    ensures r.ignore != d.ignore ==> extra.ignore == Some(r.ignore)
    ensures r.info != d.info ==> extra.info == Some(r.info)
    ensures r.external != d.external ==> extra.external == Some(r.external)
    ensures r.commands != d.commands ==> extra.commands == Some(r.commands)
  {
    Device(
      extra.name.GetOr(d.name),
      extra.typ.GetOr(d.typ),
      extra.ignore.GetOr(d.ignore),
      extra.info.GetOr(d.info),
      extra.external.GetOr(d.external),
      extra.commands.GetOr(d.commands))
  }

  /** `accessories.find(a => a.UUID === uuid)`, as the index of the first match. */
  function Find(accessories: seq<PlatformAccessory>, uuid: string): (r: Option<nat>)
    ensures r.Some? ==> r.value < |accessories| && accessories[r.value].uuid == uuid
    ensures r.Some? ==> forall j :: 0 <= j < r.value ==> accessories[j].uuid != uuid
    ensures r.None? ==> forall j :: 0 <= j < |accessories| ==> accessories[j].uuid != uuid
  {
    if accessories == [] then None
    else if accessories[0].uuid == uuid then Some(0)
    else match Find(accessories[1..], uuid)
      case None => None
      case Some(i) => Some(i + 1)
  }

  /** Whether some restored accessory carries `uuid`. */
  predicate IsRestored(restored: seq<PlatformAccessory>, uuid: string) {
    exists j :: 0 <= j < |restored| && restored[j].uuid == uuid
  }

  /** The branch registerDevice takes for a (non-null) device. */
  function Decide(c: Ctx, d: Device): (r: Registration)
    ensures r != Threw
    ensures r.Unsupported? <==> d.typ !in c.mapping
    ensures r.Unsupported? ==> r.typ == d.typ
    ensures r.Restored? <==> d.typ in c.mapping && IsRestored(c.restored, c.uuidOf(d.info.id))
    ensures r.Restored? ==> r.accessory in c.restored && r.accessory.uuid == c.uuidOf(d.info.id)
    ensures r.Restored? ==> && Find(c.restored, c.uuidOf(d.info.id)).Some?
                            && r.accessory == c.restored[Find(c.restored, c.uuidOf(d.info.id)).value]
    ensures r.Added? ==> r.accessory == PlatformAccessory(d.name, c.uuidOf(d.info.id), d)
  {
    if d.typ !in c.mapping then Unsupported(d.typ)
    else
      var uuid := c.uuidOf(d.info.id);
      match Find(c.restored, uuid)
      case Some(i) => Restored(c.restored[i])
      case None => Added(PlatformAccessory(d.name, uuid, d))
  }

  /** The ledger after registerDevice(d). */
  function Reconcile(c: Ctx, l: Ledger, d: Device): Ledger {
    match Decide(c, d)
    case Restored(a) =>
      l.(bindings := l.bindings + [Binding(c.mapping[d.typ], a)], updated := l.updated + [a])
    case Added(a) =>
      l.(bindings := l.bindings + [Binding(c.mapping[d.typ], a)], registered := l.registered + [a])
    case _ => l
  }

  /** The ledger after deviceDiscovered(d): the device is recorded, then registered. */
  function Discover(c: Ctx, l: Ledger, d: Device): Ledger {
    Reconcile(c, l.(discovered := l.discovered + [d]), d)
  }

  /** The ledger after deviceDiscovered on each of `ds`, in order. */
  function DiscoverAll(c: Ctx, l: Ledger, ds: seq<Device>): Ledger
    decreases |ds|
  {
    if ds == [] then l
    else Discover(c, DiscoverAll(c, l, ds[..|ds| - 1]), ds[|ds| - 1])
  }

  /**
   * What registerDevice promises the host: it updates only accessories that
   * were restored, and it registers only accessories whose UUID no restored
   * accessory carries.
   */
  ghost predicate Coherent(c: Ctx, l: Ledger) {
    && (forall k :: 0 <= k < |l.updated| ==> l.updated[k] in c.restored)
    && (forall k :: 0 <= k < |l.registered| ==> !IsRestored(c.restored, l.registered[k].uuid))
  }

  /** Registration depends on a device only through its type and its `info.id`. */
  lemma SameIdentitySameOutcome(c: Ctx, d1: Device, d2: Device)
    requires d1.typ == d2.typ && d1.info.id == d2.info.id
    ensures Decide(c, d1).Restored? <==> Decide(c, d2).Restored?
    ensures Decide(c, d1).Restored? ==> Decide(c, d1) == Decide(c, d2)
    ensures Decide(c, d1).Added? ==> Decide(c, d1).accessory.uuid == Decide(c, d2).accessory.uuid
  {
  }

  /**
   * Each registration with a supported type binds exactly one controller and
   * makes exactly one host call, update or register; an unsupported type
   * changes nothing.
   */
  lemma ReconcileAccounts(c: Ctx, l: Ledger, d: Device)
    ensures var l' := Reconcile(c, l, d);
      && l'.discovered == l.discovered
      && (d.typ !in c.mapping ==> l' == l)
      && (d.typ in c.mapping ==>
            && l'.bindings == l.bindings + [Binding(c.mapping[d.typ], Decide(c, d).accessory)]
            && |l'.updated| + |l'.registered| == |l.updated| + |l.registered| + 1)
  {
  }

  /**
   * registerDevice never adds to the restored list, so registering the same new
   * device twice asks the host to register two accessories with one UUID.
   */
  lemma RegisterTwiceRegistersTwice(c: Ctx, l: Ledger, d: Device)
    requires d.typ in c.mapping && !IsRestored(c.restored, c.uuidOf(d.info.id))
    ensures var a := PlatformAccessory(d.name, c.uuidOf(d.info.id), d);
      Reconcile(c, Reconcile(c, l, d), d).registered == l.registered + [a, a]
  {
  }

  /**
   * Registering a restored device again binds a second controller to the same
   * accessory and asks the host to update it a second time: nothing remembers
   * that a controller is already bound.
   */
  lemma RediscoverRebinds(c: Ctx, l: Ledger, d: Device)
    requires d.typ in c.mapping && IsRestored(c.restored, c.uuidOf(d.info.id))
    ensures var a := Decide(c, d).accessory;
      var b := Binding(c.mapping[d.typ], a);
      && a in c.restored
      && Reconcile(c, Reconcile(c, l, d), d).bindings == l.bindings + [b, b]
      && Reconcile(c, Reconcile(c, l, d), d).updated == l.updated + [a, a]
      && Reconcile(c, Reconcile(c, l, d), d).registered == l.registered
  {
  }

  /** Reconciliation keeps the ledger coherent with the restored list. */
  lemma ReconcileCoherent(c: Ctx, l: Ledger, d: Device)
    requires Coherent(c, l)
    ensures Coherent(c, Reconcile(c, l, d))
  {
  }

  lemma DiscoverAllAppend(c: Ctx, l: Ledger, ds: seq<Device>, d: Device)
    ensures DiscoverAll(c, l, ds + [d]) == Discover(c, DiscoverAll(c, l, ds), d)
  {
  }

  /**
   * A discovery pass over `ds`: the devices are recorded in order, the ledger
   * stays coherent, and when every type is supported each device yields exactly
   * one binding and exactly one host call.
   */
  lemma {:induction false} DiscoverAllAccounts(c: Ctx, l: Ledger, ds: seq<Device>)
    requires Coherent(c, l)
    ensures var l' := DiscoverAll(c, l, ds);
      && l'.discovered == l.discovered + ds
      && Coherent(c, l')
      && ((forall k :: 0 <= k < |ds| ==> ds[k].typ in c.mapping) ==>
            && |l'.bindings| == |l.bindings| + |ds|
            && |l'.updated| + |l'.registered| == |l.updated| + |l.registered| + |ds|)
    decreases |ds|
  {
    if ds != [] {
      var init := ds[..|ds| - 1];
      var last := ds[|ds| - 1];
      DiscoverAllAccounts(c, l, init);
      var mid := DiscoverAll(c, l, init);
      ReconcileAccounts(c, mid.(discovered := mid.discovered + [last]), last);
      ReconcileCoherent(c, mid.(discovered := mid.discovered + [last]), last);
      assert init + [last] == ds;
    }
  }

  /**
   * The base hub. Vendor hubs hold one and supply its name and type table;
   * `discovered` and `bindings` record what deviceDiscovered received and which
   * controllers registerDevice constructed.
   */
  class Hub {
    const platform: Platform
    const name: string
    const mapping: map<string, Kind>
    var discovered: seq<Device>
    var bindings: seq<Binding>

    constructor (platform: Platform, name: string, mapping: map<string, Kind>)
      ensures this.platform == platform && this.name == name && this.mapping == mapping
      ensures discovered == [] && bindings == []
    {
      this.platform := platform;
      this.name := name;
      this.mapping := mapping;
      discovered, bindings := [], [];
    }

    function Context(): Ctx
      reads this, platform
    {
      Ctx(platform.accessories, platform.uuidOf, mapping)
    }

    function Log(): Ledger
      reads this, platform
    {
      Ledger(discovered, bindings, platform.updated, platform.registered)
    }

    /** Log the device and register it, passing it on unchanged. */
    method DeviceDiscovered(device: Device)
      modifies this, platform`registered, platform`updated
      ensures platform.accessories == old(platform.accessories)
      ensures Log() == Discover(Context(), old(Log()), device)
    {
      discovered := discovered + [device];
      var _ := RegisterDevice(Some(device));
    }

    /**
     * Reconcile one device against the restored list. A null device throws when
     * its type is read, before the branch that would unregister an accessory, so
     * that branch is never reached and has no counterpart here.
     */
    method RegisterDevice(device: Option<Device>) returns (outcome: Registration)
      modifies this`bindings, platform`registered, platform`updated
      ensures platform.accessories == old(platform.accessories)
      ensures device.None? ==> outcome == Threw && Log() == old(Log())
      ensures device.Some? ==> outcome == Decide(Context(), device.value)
      ensures device.Some? ==> Log() == Reconcile(Context(), old(Log()), device.value)
    {
      if device.None? {
        return Threw;
      }
      var d := device.value;
      if d.typ !in mapping {
        return Unsupported(d.typ);
      }
      var kind := mapping[d.typ];
      var uuid := platform.uuidOf(d.info.id);
      var existing := Find(platform.accessories, uuid);
      if existing.Some? {
        var accessory := platform.accessories[existing.value];
        bindings := bindings + [Binding(kind, accessory)];
        platform.updated := platform.updated + [accessory];
        outcome := Restored(accessory);
      } else {
        var accessory := PlatformAccessory(d.name, uuid, d);
        bindings := bindings + [Binding(kind, accessory)];
        platform.registered := platform.registered + [accessory];
        outcome := Added(accessory);
      }
    }
  }
}
