# homebridge-personal, modelled in Dafny

homebridge-personal is a Homebridge platform plugin that exposes infrared
gear behind two kinds of hub as HomeKit accessories: a Logitech Harmony hub
(LED strips, a humidifier, a television, a Denon AV receiver) and a BroadLink
RM hub (an air conditioner). This project models three parts of it and
proves what each promises.

1. **Reconciliation in the hub base class** (`hub.dfy`). Each discovered
   device goes through `registerDevice`. It looks up the device's type in the
   hub's type table and derives a UUID from `info.id`. It then either rebinds
   a controller to the accessory the host restored with that UUID and asks
   the host to update it, or creates a new accessory and asks the host to
   register it. The effect is written once as functions over a `Ledger`. The
   ledger holds what was discovered and bound, and what was handed to the
   host's update and register calls. `Hub.DeviceDiscovered` and
   `Hub.RegisterDevice` are proved to change the `Hub` and `Platform` objects
   exactly as those functions say. The restored list only grows through
   `Platform.ConfigureAccessory`.
2. **Fail-fast discovery in the two vendor hubs** (`validation.dfy`,
   `broadlink.dfy`, `harmony.dfy`).
   - Both hubs walk their configured accessory list in order. A null or
     nameless entry, a missing type or an unsupported type ends the whole
     pass. A named `ignore` entry is skipped.
   - The loops are imperative `while` loops proved against `Admitted` and
     `StopReason`. `Admitted` is in turn proved equal to an independent
     filter over the prefix before the first aborting entry.
   - Harmony also matches each admitted entry by label against the devices
     the hub enumerated. The last match wins. The entry's `external` is
     rewritten, and an unmatched entry is skipped without ending the pass.
   - Discovery is asynchronous on Harmony. `Harmony.DiscoverDevices` records
     an enumeration request, and `Harmony.DevicesDiscovered` is the answer
     arriving later.
3. **Controller state machines** (`led_strip.dfy`, `led_strip_accessory.dfy`,
   `presets.dfy`, `av_denon.dfy`, `tv.dfy`, `air_humidifier.dfy`,
   `air_conditioner.dfy`).
   - Each controller is a class holding its mirror of the device state.
   - Everything it sends is appended to a `Channel` outbox (`commands.dfy`).
     The hub controllers send through their hub's `sendData`. The stand-alone
     LED-strip accessory sends through `platform.ws` instead.
   - Every handler's contract gives the new mirror and the exact payloads
     sent.
   - Only three controllers are reachable from a hub's type table: the air
     conditioner (BroadLink, src/broadlink/index.ts:18-20), and the LED strip
     and the humidifier (Harmony, src/harmony/index.ts:20-23).
   - No hub constructs the TV, the AV receiver or the stand-alone LED-strip
     accessory. The TV and the AV receiver appear in no type table. The
     LED-strip accessory uses `platform.ws` and `platform.storage`, which the
     platform class (src/platform.ts:59-91) does not declare. These three are
     modelled as classes on their own, as written.

The model follows the code in these places. Each is a point where a reader
might expect otherwise:

- An entry whose type has no controller ends the whole discovery pass; it is
  not skipped (src/broadlink/index.ts:68-71, src/harmony/index.ts:107-110).
- A nameless entry ends the pass even when it is marked `ignore`, because the
  name check comes first.
- `setTvInput` with a value outside 1 to 10 still sends the `PowerOff` default
  and still stores the value.
- An unmapped remote key still sends a command, with an empty name.
- The air conditioner's cooling switch sends `commands.temperature16`, the
  payload `SetTemperature(16)` sends (`CoolKeyIsSixteen`).
- The cooling switch writes TargetTemperature with `setValue`, and the host
  runs that characteristic's set handler, `setTemperature`, on such a write.
  The host first brings the written value into the characteristic's limits,
  16 to 32 (src/broadlink/accessories/air-conditioner.ts:41), so the 0 that
  OFF writes becomes 16. Every switch therefore sends `temperature16` first
  and its own payload second: cooling sends `temperature16` twice, and OFF
  sends `temperature16` before `off`. After OFF the target is 16, not 0, and
  the current temperature is 0.
- The thermostat's target-temperature getter always answers 0
  (src/broadlink/accessories/air-conditioner.ts:75-79), so reading the target
  back never gives the value that was set.
- The air conditioner logs a missing payload and then sends it anyway. The
  BroadLink hub's `sendData` turns the payload into a hex buffer
  (src/broadlink/index.ts:82). For an absent payload that conversion throws,
  so nothing is sent and the rest of the handler does not run.
- Registering the same new device twice asks the host to register two
  accessories with one UUID. This is because registration never adds to the
  restored list (`RegisterTwiceRegistersTwice`). The host refuses a UUID it
  already holds by throwing, which would end the discovery pass there; the
  model takes the register call to return (see `BaseHub.Hub.RegisterDevice`
  under "## Left out").
- A restored device's controller is built on the cached accessory as it is
  (src/base/hub.ts:56); the refresh of its `context.device` is commented out
  (src/base/hub.ts:53-55). `Decide` returns that cached accessory, so the
  controller keeps the device saved at first registration, and later edits
  to the entry's `commands` or `external` never reach it.
- Rediscovering a restored device binds one more controller to the same
  accessory and updates it once more (`RediscoverRebinds`). Every BroadLink
  hub report runs a full pass, so each report adds a controller per restored
  accessory, not one controller per accessory.
- `registerDevice` reads `device.type` before testing `device`. A null device
  therefore throws, and the unregister branch (src/base/hub.ts:60-65) can
  never run.
- Harmony's `hubDiscovered` reads `hub.ip` for its log line before testing
  `hub`. A null hub therefore throws before the guard, and only the
  missing-`id` half of the guard has an effect.
- The humidifier's `getOn`/`setOn` are attached to the `Active`
  characteristic (src/harmony/accessories/air-humidifier.ts:48-51), so the
  on/off mirror follows the Active switch.
- The stand-alone LED-strip accessory stores the negation of the requested
  on/off value, and restores the stored value as it is.

JavaScript truthiness is modelled as follows:

- A missing, null or empty name or type, and a missing Harmony hub id, are
  the empty string. A payload is either present in `commands` (possibly
  empty) or absent.
- A null configuration entry is `None`.
- A numeric characteristic value is truthy when it is non-zero.

Hue and saturation are `real`, because they are only compared.

## Model

| member | source | states |
|---|---|---|
| Platform.Platform.constructor | src/platform.ts:62 | the restored list starts empty, and so do the register and update records |
| Platform.Platform.ConfigureAccessory | src/platform.ts:86-90 | a restored accessory is appended to the list, and nothing else changes |
| Commands.Channel.constructor | src/base/hub.ts:17 | a hub's outbox starts empty |
| Commands.Channel.SendData | src/base/hub.ts:17 | sending appends exactly that payload to the outbox |
| BaseHub.TransformDevice | src/base/hub.ts:28-30 | every field present in the overrides replaces the device's field; every other field is the device's; with no overrides the result equals the device |
| BaseHub.Find | src/base/hub.ts:46 | the result is the index of the first accessory with the UUID, or None exactly when none carries it |
| BaseHub.Decide | src/base/hub.ts:32-81 | unsupported iff the type has no controller; restored iff supported and a restored accessory has `uuid(info.id)`, and then the first such accessory in the restored list; otherwise a new accessory named after the device, with that UUID and the device as context |
| BaseHub.SameIdentitySameOutcome | src/base/hub.ts:42-46 | two devices with equal type and `info.id` take the same branch, rebind the same accessory, and a new one gets the same UUID |
| BaseHub.ReconcileAccounts | src/base/hub.ts:32-81 | an unsupported type changes nothing; a supported one adds exactly one binding to the chosen accessory and exactly one update-or-register call |
| BaseHub.RegisterTwiceRegistersTwice | src/base/hub.ts:44-81 | a supported device that no restored accessory matches, registered twice, is handed to the register call twice |
| BaseHub.RediscoverRebinds | src/base/hub.ts:46-59 | a supported, restored device registered twice binds two controllers to the same restored accessory and updates it twice, and registers nothing |
| BaseHub.ReconcileCoherent | src/base/hub.ts:46-81 | only restored accessories are ever updated, and only accessories whose UUID is not restored are registered |
| BaseHub.DiscoverAllAppend | src/base/hub.ts:23-26 | a pass over one more device is the pass over the others followed by that device's discovery |
| BaseHub.DiscoverAllAccounts | src/base/hub.ts:23-81 | a pass records exactly its devices in order and keeps the ledger coherent; with all types supported it makes one binding and one host call per device |
| BaseHub.Hub.constructor | src/base/hub.ts:7-12 | a hub starts with its name and type table, nothing discovered and nothing bound |
| BaseHub.Hub.DeviceDiscovered | src/base/hub.ts:23-26 | the device is recorded and then registered unchanged; the restored list is untouched |
| BaseHub.Hub.RegisterDevice | src/base/hub.ts:32-82 | a null device throws and changes nothing; otherwise the outcome is `Decide` and the bindings, update and register records change as `Reconcile` says; the restored list is untouched |
| Validation.Check | src/broadlink/index.ts:53-71 | an entry is admitted iff it is named, not ignored, typed and supported; skipped iff named and ignored; a null or nameless entry aborts with NoName; a named, not ignored entry with no type aborts with NoType; one whose type has no controller aborts with NotSupported |
| Validation.FirstAbort | src/broadlink/index.ts:53-71 | the index of the first aborting entry: no entry before it aborts |
| Validation.AdmittedIsAdmissiblePrefix | src/broadlink/index.ts:53-74 | a pass hands on exactly the admissible entries before the first aborting entry, in order, and stops for that entry's reason |
| Validation.AdmittedAreValid | src/broadlink/index.ts:54-71 | every device handed on is named, not ignored, typed and supported |
| Validation.AdmittedExtend | src/broadlink/index.ts:53-74 | after a prefix that did not abort, one more entry adds itself if admitted, and the stop reason is its own |
| Validation.AbortIgnoresRest | src/broadlink/index.ts:53-71 | nothing after an aborting entry changes what is handed on or why the pass stops |
| Validation.HaltAt | src/broadlink/index.ts:54-71 | at an aborting entry the devices handed on so far are final, and the pass stops for that entry's reason |
| Validation.StepAt | src/broadlink/index.ts:53-74 | a non-aborting entry extends the prefix, adding itself only when admitted |
| BroadlinkHub.Broadlink.constructor | src/broadlink/index.ts:14-28 | the BroadLink hub with its one-type table; discovery starts iff there is a `broadlink` section |
| BroadlinkHub.Broadlink.DiscoverHubs | src/broadlink/index.ts:30-37 | hub discovery starts listening for hubs |
| BroadlinkHub.Broadlink.HubDiscovered | src/broadlink/index.ts:39-44 | the reported hub replaces the connection unconditionally, and a full discovery pass runs |
| BroadlinkHub.Broadlink.DiscoverDevices | src/broadlink/index.ts:46-75 | with no accessory list nothing is discovered; otherwise exactly the admitted prefix is discovered, in order, and the pass stops for the first invalid entry's reason |
| HarmonyHub.LastMatch | src/harmony/index.ts:113-118 | None iff no device carries the label; otherwise a device with the label, after which no device carries it |
| HarmonyHub.MatchLast | src/harmony/index.ts:113-118 | the label-matching loop finds the last matching device |
| HarmonyHub.Transform | src/harmony/index.ts:128-136 | the entry with only `external` overridden, to the matched device's label and id |
| HarmonyHub.CorrelateAppend | src/harmony/index.ts:112-124 | one more admitted entry adds its transformed match, or nothing when unmatched |
| HarmonyHub.UnmatchedIsSkipped | src/harmony/index.ts:120-124 | an entry with no matching device is dropped, and the entries after it are still handed on |
| HarmonyHub.CorrelatedAreDerived | src/harmony/index.ts:112-136 | every device a Harmony pass hands on is an admitted entry whose `external` is some enumerated device's label and id |
| HarmonyHub.Harmony.constructor | src/harmony/index.ts:16-31 | the Harmony hub with its two-type table; hub discovery listens iff there is a `harmony` section with a port |
| HarmonyHub.Harmony.DiscoverHubs | src/harmony/index.ts:33-36 | a missing port returns before discovery starts |
| HarmonyHub.Harmony.HubDiscovered | src/harmony/index.ts:59-70 | a hub without an id changes nothing; any other replaces the connection and starts device enumeration |
| HarmonyHub.Harmony.DiscoverDevices | src/harmony/index.ts:72-87 | with no accessory list nothing is enumerated; otherwise the connected hub's devices are requested |
| HarmonyHub.Harmony.DevicesDiscovered | src/harmony/index.ts:89-126 | the pass discovers exactly the admitted prefix's matched entries, transformed, in order, and stops for the first invalid entry's reason |
| LightPresets.Colour | src/harmony/accessories/led-strip.ts:91-129 | white iff saturation is below 5; otherwise each hue band gives one colour; the bands are disjoint and cover [0, 360); any other hue keeps the `Light9` default |
| LightPresets.CodeInjective | src/harmony/accessories/led-strip.ts:91-128 | distinct colours send distinct command names |
| LightPresets.HueBoundaries | src/harmony/accessories/led-strip.ts:93-129 | each band edge (0, 40, 70, 164, 277, 340) falls on the band above it and the hue half a degree below on the band below; saturation 4 is white for every hue; 359.5 is still red, and 360, -0.5 and -1 keep the default |
| HarmonyLedStrip.LedStrip.constructor | src/harmony/accessories/led-strip.ts:27-61 | the state is off, hue and saturation -1, and exactly one `Off` is sent to the external id |
| HarmonyLedStrip.LedStrip.SetOn | src/harmony/accessories/led-strip.ts:63-81 | exactly one `On` or `Off`, as the value says; the mirror takes the value |
| HarmonyLedStrip.LedStrip.SetHue | src/harmony/accessories/led-strip.ts:83-136 | the hue is stored; exactly one command with the quantised colour of the new hue and old saturation is sent; white resets saturation to -1 |
| HarmonyLedStrip.LedStrip.SetSaturation | src/harmony/accessories/led-strip.ts:138-146 | only the saturation changes; nothing is sent |
| LedStripAccessoryModel.LedStripAccessory.constructor | src/led-strip-accessory.ts:23-41 | the state is off, hue and saturation -1, no commands yet, and exactly one `Off` is sent |
| LedStripAccessoryModel.LedStripAccessory.CommandsFetched | src/led-strip-accessory.ts:40-41 | the fetched command list replaces the empty one |
| LedStripAccessoryModel.LedStripAccessory.StoredOnRead | src/led-strip-accessory.ts:39 | the stored value becomes the on/off mirror as it is |
| LedStripAccessoryModel.LedStripAccessory.SetOn | src/led-strip-accessory.ts:70-93 | without commands nothing changes; otherwise the negated value is stored under `ledStripAccessory:on`, one `On` or `Off` is sent, and the mirror takes the value |
| LedStripAccessoryModel.LedStripAccessory.GetOn | src/led-strip-accessory.ts:108-119 | returns the mirror |
| LedStripAccessoryModel.LedStripAccessory.SetHue | src/led-strip-accessory.ts:121-175 | the hue is always stored; without commands nothing is sent and saturation stays; otherwise as the Harmony strip |
| LedStripAccessoryModel.LedStripAccessory.SetSaturation | src/led-strip-accessory.ts:177-185 | only the saturation changes; nothing is sent |
| AvDenon.InputCommand | src/harmony/accessories/av-denon.ts:228-269 | `PowerOff` exactly for values outside 1 to 10; `InputTvAudio` exactly for 9 and 10 |
| AvDenon.InputsDistinct | src/harmony/accessories/av-denon.ts:229-268 | two different inputs share a command only when they are 9 and 10 |
| AvDenon.KeyCommand | src/harmony/accessories/av-denon.ts:281-317 | the empty name exactly for keys other than the seven mapped ones; SELECT is `Enter` and BACK is `Back`, and only they |
| AvDenon.AVDenon.constructor | src/harmony/accessories/av-denon.ts:23-27 | the mirror starts inactive, on input 9, at volume 16 |
| AvDenon.AVDenon.GetTvActive | src/harmony/accessories/av-denon.ts:65-67 | returns the mirror |
| AvDenon.AVDenon.SetTvActive | src/harmony/accessories/av-denon.ts:69-83 | exactly one `PowerOn` for a non-zero value, else `PowerOff`; the mirror takes the value |
| AvDenon.AVDenon.GetTvInput | src/harmony/accessories/av-denon.ts:219-221 | returns the mirror |
| AvDenon.AVDenon.SetTvInput | src/harmony/accessories/av-denon.ts:223-274 | exactly one command, the input's name; the mirror takes the value whatever it is |
| AvDenon.AVDenon.SetTvKeys | src/harmony/accessories/av-denon.ts:276-320 | exactly one command, the key's name; no mirror field changes |
| AvDenon.AVDenon.GetSpeakerVolume | src/harmony/accessories/av-denon.ts:338-340 | returns the mirror |
| AvDenon.AVDenon.SetSpeakerVolume | src/harmony/accessories/av-denon.ts:342-355 | exactly one `VolumeDown` for a non-zero value, else `VolumeUp`; the mirror takes the value |
| Television.KeyCommand | src/harmony/accessories/tv.ts:82-123 | the empty name exactly for keys other than the eight mapped ones; SELECT is `Select` and BACK is `Return`, and only they |
| Television.TV.constructor | src/harmony/accessories/tv.ts:23-26 | the mirror starts inactive at volume 16 |
| Television.TV.GetTvActive | src/harmony/accessories/tv.ts:57-59 | returns the mirror |
| Television.TV.SetTvActive | src/harmony/accessories/tv.ts:61-75 | exactly one `PowerOn` for a non-zero value, else `PowerOff`; the mirror takes the value |
| Television.TV.SetTvKeys | src/harmony/accessories/tv.ts:77-126 | exactly one command, the key's name; no mirror field changes |
| Television.TV.GetSpeakerVolume | src/harmony/accessories/tv.ts:144-146 | returns the mirror |
| Television.TV.SetSpeakerVolume | src/harmony/accessories/tv.ts:148-161 | exactly one `VolumeDown` for a non-zero value, else `VolumeUp`; the mirror takes the value |
| AirHumidifierModel.AirHumidifier.constructor | src/harmony/accessories/air-humidifier.ts:32-37 | the mirror starts off |
| AirHumidifierModel.AirHumidifier.GetOn | src/harmony/accessories/air-humidifier.ts:66-76 | returns the mirror |
| AirHumidifierModel.AirHumidifier.SetOn | src/harmony/accessories/air-humidifier.ts:78-92 | exactly one `PowerToggle` whatever the value; the mirror takes the value |
| AirConditionerModel.Digits | src/broadlink/accessories/air-conditioner.ts:63 | a non-empty string of decimal digits ending in the last digit, one character exactly below 10 |
| AirConditionerModel.DigitsInjective | src/broadlink/accessories/air-conditioner.ts:63 | different numbers have different digit strings |
| AirConditionerModel.LeadingMinus | src/broadlink/accessories/air-conditioner.ts:63 | a written integer starts with a minus sign exactly when it is negative |
| AirConditionerModel.DecimalStringInjective | src/broadlink/accessories/air-conditioner.ts:63 | different integers are written differently |
| AirConditionerModel.TemperatureKeyInjective | src/broadlink/accessories/air-conditioner.ts:63-67 | different temperatures look up different `commands` keys |
| AirConditionerModel.CoolKeyIsSixteen | src/broadlink/accessories/air-conditioner.ts:98 | the cooling switch's key is the key of temperature 16 |
| AirConditionerModel.Lookup | src/broadlink/accessories/air-conditioner.ts:67 | a payload is present exactly when the key is configured, and it is that entry |
| AirConditionerModel.AirConditioner.constructor | src/broadlink/accessories/air-conditioner.ts:21-55 | the current temperature starts at 0, the target is unset, and no error has been logged |
| AirConditionerModel.ErrorFor | src/broadlink/accessories/air-conditioner.ts:63-65 | one error line exactly when the key's payload is missing or empty |
| AirConditionerModel.SendResult | src/broadlink/index.ts:81-84 | at most one payload reaches the wire: the looked-up payload, or nothing exactly when the key is absent |
| AirConditionerModel.AirConditioner.SendPayload | src/broadlink/index.ts:81-84 | sending `commands[key]` throws exactly when the key is absent, and otherwise sends that payload |
| AirConditionerModel.AirConditioner.SetTemperature | src/broadlink/accessories/air-conditioner.ts:57-73 | one error is logged iff the temperature's payload is missing or empty; the lookup is then sent; an absent payload throws, leaving the current temperature; otherwise the current temperature takes the value |
| AirConditionerModel.ClampTarget | src/broadlink/accessories/air-conditioner.ts:41 | a written target lands in [16, 32]: unchanged inside, the nearer limit outside |
| AirConditionerModel.AirConditioner.WriteTargetTemperature | src/broadlink/accessories/air-conditioner.ts:39-43 | a write to TargetTemperature is brought into [16, 32] and runs SetTemperature with that value; the value is kept exactly when the handler completes |
| AirConditionerModel.AirConditioner.GetTemperature | src/broadlink/accessories/air-conditioner.ts:75-79 | always 0 |
| AirConditionerModel.AirConditioner.SetCoolingState | src/broadlink/accessories/air-conditioner.ts:81-103 | one error is logged iff `off` is missing or empty, whatever the state; the TargetTemperature write (0 for OFF, 16 otherwise, both brought to 16) runs SetTemperature(16) first, with its own error and send, and the target becomes 16 when that completes; the current temperature is then 0 for OFF and 16 otherwise; OFF then sends `off` and any other state `temperature16`, so OFF sends `temperature16` then `off` and cooling sends `temperature16` twice; the switch throws exactly when its own payload is absent |
| AirConditionerModel.AirConditioner.GetCoolingState | src/broadlink/accessories/air-conditioner.ts:105-109 | always OFF |

## Left out

- Vendor discovery and transport are not modelled: the Harmony hub discovery and WebSocket, the BroadLink library, and `getCommands`. These are foreign libraries and network I/O. A hub event is a method call, and `sendData` appends to the `Channel` outbox. The one effect of the hex-buffer conversion that is modelled is that an absent payload throws. A present payload that is not valid hex is sent as it is.
- The stand-alone LED-strip accessory talks to the platform's WebSocket and storage asynchronously. Their answers are the methods `CommandsFetched` and `StoredOnRead`, so the model covers any order of arrival, but not the promises themselves or JSON serialisation.
- Homebridge service and characteristic wiring is framework glue and is not modelled: services, `setProps`, handler registration, TV inputs, speaker services, external publication, and the accessory-information copy in src/base/accessories/accessory.ts. So is the tester accessory, src/base/accessories/tester.ts.
- Logging is left out, except for the air conditioner's error lines, which the source promises.
- The UUID generator is a foreign call. It is the platform's function field `uuidOf`, with nothing assumed about it.
- The base hub's default `devicesDiscovered` only returns its argument, and nothing in the model calls it. Harmony replaces it; the BroadLink hub neither replaces nor calls it.
- The controller objects created by `registerDevice` are recorded as a `Binding` of a controller kind to an accessory. Each controller class is modelled on its own, not linked to the hub that created it.
- BaseHub.Hub.RegisterDevice: the host's register call (src/base/hub.ts:80) is taken to return. The host hands the new accessory to its bridge in the same call, and the bridge throws when it already holds that UUID; nothing in `registerDevice`, `deviceDiscovered` or either discovery loop catches it. Two admitted entries with one new `info.id`, or a second hub report for an already registered new device, would therefore end the program's pass at that entry and drop every later one. The discovery contracts of `Broadlink.DiscoverDevices`, `Broadlink.HubDiscovered` and `Harmony.DevicesDiscovered` thus assume that the UUIDs registered as new are distinct from those the host already holds.
- BaseHub.Hub.RegisterDevice: the contract does not include what the newly constructed controller itself does (for example, the LED strip's initial `Off`). That is stated by the controller's own constructor instead.
- The type table is a Dafny map, so inherited JavaScript object keys such as `constructor` are not types with a controller here.
- A null Harmony hub is not modelled. It throws while being logged, before the guard. `HubInfo` is always present, and a missing id is the empty string.
- A configured entry without `external` is not modelled. Harmony throws when reading its label, and every `Device` here has one.
- A configured entry without `info`, or without `info.id`, is not modelled. Such an entry passes every check. The source then throws at src/base/hub.ts:42 reading `info.id`, or hands `undefined` to the UUID generator, and a throw ends the pass and drops every later entry. Every `Device` here has an `Info` with a string id, so the discovery contracts promise that the whole admitted prefix is discovered.
- A configured entry without `commands` is not modelled. The air conditioner then throws at src/broadlink/accessories/air-conditioner.ts:63 and :87, before its error line, its TargetTemperature write and its current-temperature update. Here `commands` is always a map, and its payload values, typed `unknown` in the source, are strings.
- Characteristic values are modelled as `int`, `real` or `bool`. Values of other JavaScript types are not modelled: a string input value would fall to the default case, and a fractional temperature would give a key like `temperature16.5`.
- The TargetTemperature characteristic's own initial value belongs to the framework. The model starts it as unset and records only what the controller writes.
- AirConditionerModel.AirConditioner.WriteTargetTemperature: this is the host framework's behaviour, and the framework is not part of this model. The following points of it are assumed. A controller's `setValue` brings the value into the characteristic's `minValue`/`maxValue` limits and runs the set handler with it. The value is kept once the handler calls back. A throw inside the handler is caught by the host. The framework's rounding to `minStep` and its other value checks are not modelled; values are integers here.
- AirConditionerModel.AirConditioner.SetCoolingState: a throw in the TargetTemperature write is taken to be contained by the host, so the switch goes on. The failures of the switch's own send are reported in `threw`; they do not undo the earlier writes.
- A `harmony` section without a `settings` object is not modelled. The source throws reading `settings.port` (src/harmony/index.ts:34); the model reads a missing port as 0.
- AirHumidifierModel.AirHumidifier.SetOn: the Active characteristic delivers 0 or 1, and the source stores that number as it is. The model takes it as false or true.
- LedStripAccessoryModel.LedStripAccessory: `storage` is a field of each accessory. In the source it is the platform-wide `platform.storage` under one fixed key (src/led-strip-accessory.ts:39, 85), so two such accessories would share and overwrite one stored value. The model does not capture that sharing.
- LedStripAccessoryModel.LedStripAccessory.StoredOnRead: the stored value is a `bool`. Before any write, `getItem` yields `undefined`, and the mirror (and `getOn`) would then hold `undefined`. That case is not modelled.
