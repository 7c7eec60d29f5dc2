/**
 * The BroadLink air-conditioner controller. Payloads are looked up by name in
 * the device's `commands` table and handed to the hub even when the lookup
 * fails; the hub then throws, and nothing is sent. The controller keeps the
 * thermostat's current and target temperature values, and writing the target
 * runs the temperature handler again.
 */
module AirConditionerModel {
  import opened Wrappers
  import opened Platform
  import opened Commands
  import Hap

  const NotConfigured: string := "Config temperature does not exist"

  function DigitChar(d: nat): char
    requires d < 10
  {
    "0123456789"[d]
  }

  /** The decimal digits of `n`, most significant first, without leading zeros. */
  function Digits(n: nat): (s: string)
    ensures |s| >= 1 && (|s| == 1 <==> n < 10)
    ensures forall k :: 0 <= k < |s| ==> '0' <= s[k] <= '9'
    ensures s[|s| - 1] == DigitChar(n % 10)
  {
    if n < 10 then [DigitChar(n)] else Digits(n / 10) + [DigitChar(n % 10)]
  }

  /** Different numbers have different digit strings. */
  lemma {:induction false} DigitsInjective(a: nat, b: nat)
    requires Digits(a) == Digits(b)
    ensures a == b
  {
    var s := Digits(a);
    assert DigitChar(a % 10) == s[|s| - 1] == DigitChar(b % 10);
    assert a % 10 == b % 10;
    if a >= 10 {
      assert Digits(a / 10) == s[..|s| - 1] == Digits(b / 10);
      DigitsInjective(a / 10, b / 10);
    }
  }

  /** An integer as a JavaScript template literal writes it. */
  function DecimalString(v: int): string {
    if v < 0 then "-" + Digits(-v) else Digits(v)
  }

  /** The `commands` key the thermostat uses for temperature `v`. */
  function TemperatureKey(v: int): string {
    "temperature" + DecimalString(v)
  }

  /** The sign is written first, and only for negative numbers. */
  lemma LeadingMinus(v: int)
    ensures |DecimalString(v)| >= 1 && (DecimalString(v)[0] == '-' <==> v < 0)
  {
  }

  /** Different integers are written differently. */
  lemma DecimalStringInjective(a: int, b: int)
    requires DecimalString(a) == DecimalString(b)
    ensures a == b
  {
    LeadingMinus(a);
    LeadingMinus(b);
    if a < 0 && b < 0 {
      assert Digits(-a) == DecimalString(a)[1..];
      assert Digits(-b) == DecimalString(b)[1..];
      DigitsInjective(-a, -b);
    } else if a >= 0 && b >= 0 {
      DigitsInjective(a, b);
    }
  }

  /** Distinct temperatures select distinct entries of `commands`. */
  lemma TemperatureKeyInjective(a: int, b: int)
    requires TemperatureKey(a) == TemperatureKey(b)
    ensures a == b
  {
    var n := |"temperature"|;
    assert DecimalString(a) == TemperatureKey(a)[n..];
    assert DecimalString(b) == TemperatureKey(b)[n..];
    DecimalStringInjective(a, b);
  }

  /** The key the cooling switch sends is the one SetTemperature(16) sends. */
  lemma CoolKeyIsSixteen()
    ensures TemperatureKey(16) == "temperature16"
  {
  }

  /** `commands[key]`: `None` when the key is absent. */
  function Lookup(commands: map<string, string>, key: string): (r: Option<string>)
    ensures r.Some? <==> key in commands
    ensures r.Some? ==> r.value == commands[key]
  {
    if key in commands then Some(commands[key]) else None
  }

  /** The JavaScript truth test on `commands[key]`: present and non-empty. */
  predicate Configured(commands: map<string, string>, key: string) {
    Lookup(commands, key) != None && Lookup(commands, key) != Some("")
  }

  /** The error lines the "is it configured" test logs for `key`. */
  function ErrorFor(commands: map<string, string>, key: string): (r: seq<string>)
    ensures r == [] <==> Configured(commands, key)
    ensures r != [] ==> r == [NotConfigured]
  {
    if Configured(commands, key) then [] else [NotConfigured]
  }

  /**
   * What `sendData(commands[key])` puts on a BroadLink hub's wire: the payload,
   * or nothing when the key is absent, because turning `undefined` into a hex
   * buffer throws before anything is sent.
   */
  function SendResult(commands: map<string, string>, key: string): (r: seq<Payload>)
    ensures |r| <= 1
    ensures r == [] <==> Lookup(commands, key).None?
    ensures r != [] ==> r[0] == Raw(Lookup(commands, key).value)
  {
    if key in commands then [Raw(commands[key])] else []
  }

  /** TargetTemperature's limits, as the thermostat declares them. */
  const TargetMin: int := 16
  const TargetMax: int := 32

  /** A value written to TargetTemperature, brought into its limits by the host. */
  function ClampTarget(value: int): (v: int)
    ensures TargetMin <= v <= TargetMax
    ensures TargetMin <= value <= TargetMax ==> v == value
    ensures value < TargetMin ==> v == TargetMin
    ensures value > TargetMax ==> v == TargetMax
  {
    if value < TargetMin then TargetMin else if value > TargetMax then TargetMax else value
  }

  class AirConditioner {
    const channel: Channel
    /** `device.commands` of the accessory's context. */
    const commands: map<string, string>
    /** The CurrentTemperature characteristic. */
    var currentTemperature: int
    /** The TargetTemperature characteristic, once a write to it has completed. */
    var targetTemperature: Option<int>
    /** Error lines logged, in order. */
    var errors: seq<string>

    constructor (channel: Channel, accessory: PlatformAccessory)
      ensures this.channel == channel && commands == accessory.device.commands
      ensures currentTemperature == 0 && targetTemperature == None && errors == []
    {
      this.channel := channel;
      commands := accessory.device.commands;
      currentTemperature := 0;
      targetTemperature := None;
      errors := [];
    }

    /** `hub.sendData(commands[key])` on the BroadLink hub; `threw` when the payload is absent. */
    method SendPayload(key: string) returns (threw: bool)
      modifies channel
      ensures threw <==> Lookup(commands, key).None?
      ensures channel.sent == old(channel.sent) + SendResult(commands, key)
    {
      if key !in commands {
        return true;
      }
      channel.SendData(Raw(commands[key]));
      threw := false;
    }

    /**
     * A missing payload is logged and then sent anyway; an absent one throws in
     * the hub, so the current temperature is written only when the send succeeds.
     */
    method SetTemperature(value: int) returns (threw: bool)
      modifies this`currentTemperature, this`errors, channel
      ensures errors == old(errors) + ErrorFor(commands, TemperatureKey(value))
      ensures channel.sent == old(channel.sent) + SendResult(commands, TemperatureKey(value))
      ensures threw <==> Lookup(commands, TemperatureKey(value)).None?
      ensures currentTemperature == if threw then old(currentTemperature) else value
    {
      var key := "temperature" + DecimalString(value);
      if key !in commands || commands[key] == "" {
        errors := errors + [NotConfigured];
      }
      threw := SendPayload(key);
      if threw {
        return;
      }
      currentTemperature := value;
    }

    /**
     * The controller's own write to TargetTemperature: the host brings the value
     * into the characteristic's limits, runs the set handler with it, and keeps
     * it once the handler has called back.
     */
    method WriteTargetTemperature(value: int) returns (threw: bool)
      modifies this`currentTemperature, this`targetTemperature, this`errors, channel
      ensures var v := ClampTarget(value);
        && errors == old(errors) + ErrorFor(commands, TemperatureKey(v))
        && channel.sent == old(channel.sent) + SendResult(commands, TemperatureKey(v))
        && (threw <==> Lookup(commands, TemperatureKey(v)).None?)
        && currentTemperature == (if threw then old(currentTemperature) else v)
        && targetTemperature == (if threw then old(targetTemperature) else Some(v))
    {
      var v := value;
      if v < TargetMin {
        v := TargetMin;
      } else if v > TargetMax {
        v := TargetMax;
      }
      threw := SetTemperature(v);
      if !threw {
        targetTemperature := Some(v);
      }
    }

    method GetTemperature() returns (value: int)
      ensures value == 0
    {
      value := 0;
    }

    /**
     * OFF switches the unit off; any other state cools at 16 degrees. The
     * error about a missing `off` payload is logged whichever state was asked.
     * Writing TargetTemperature (0 or 16, both brought to 16) first runs
     * SetTemperature(16), whose own send and error come before the switch's
     * payload; a throw there is the host's and does not end the switch.
     * `threw` is the switch's own send failing.
     */
    method SetCoolingState(value: int) returns (threw: bool)
      modifies this`currentTemperature, this`targetTemperature, this`errors, channel
      ensures var key := if value == Hap.OFF then "off" else TemperatureKey(16);
        && errors == old(errors) + ErrorFor(commands, "off") + ErrorFor(commands, TemperatureKey(16))
        && currentTemperature == (if value == Hap.OFF then 0 else 16)
        && targetTemperature == (if TemperatureKey(16) in commands then Some(16) else old(targetTemperature))
        && channel.sent == old(channel.sent) + SendResult(commands, TemperatureKey(16)) + SendResult(commands, key)
        && (threw <==> Lookup(commands, key).None?)
      ensures value == Hap.OFF && "temperature16" in commands && "off" in commands ==>
        channel.sent == old(channel.sent) + [Raw(commands["temperature16"]), Raw(commands["off"])]
      ensures value != Hap.OFF && "temperature16" in commands ==>
        channel.sent == old(channel.sent) + [Raw(commands["temperature16"]), Raw(commands["temperature16"])]
    {
      if "off" !in commands || commands["off"] == "" {
        errors := errors + [NotConfigured];
      }
      CoolKeyIsSixteen();
      if value == Hap.OFF {
        var _ := WriteTargetTemperature(0);
        currentTemperature := 0;
        threw := SendPayload("off");
      } else {
        var _ := WriteTargetTemperature(16);
        currentTemperature := 16;
        threw := SendPayload("temperature16");
      }
    }

    method GetCoolingState() returns (value: int)
      ensures value == Hap.OFF
    {
      value := Hap.OFF;
    }
  }
}
