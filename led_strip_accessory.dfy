/**
 * The stand-alone LED-strip accessory. It sends through the platform's
 * WebSocket to the device's own `id`, keeps its on/off state in the platform's
 * key-value storage, and does nothing on/off or colour related until the
 * device's command list has been fetched.
 */
module LedStripAccessoryModel {
  import opened Commands
  import opened LightPresets

  /** The storage key for the on/off state. */
  const OnKey: string := "ledStripAccessory:on"

  class LedStripAccessory {
    const channel: Channel
    /** `context.device.id` of the accessory. */
    const deviceId: string
    var on: bool
    var hue: real
    var saturation: real
    /** The device's commands as fetched from the hub; empty until they arrive. */
    var commands: seq<string>
    /** The platform's key-value storage. */
    var storage: map<string, bool>

    /** Construction forces the lights off; commands and stored state arrive later. */
    constructor (channel: Channel, deviceId: string, storage: map<string, bool>)
      modifies channel
      ensures this.channel == channel && this.deviceId == deviceId && this.storage == storage
      ensures !on && hue == -1.0 && saturation == -1.0 && commands == []
      ensures channel.sent == old(channel.sent) + [IrTo(deviceId, "Off")]
    {
      this.channel := channel;
      this.deviceId := deviceId;
      this.storage := storage;
      on, hue, saturation := false, -1.0, -1.0;
      commands := [];
      new;
      channel.SendData(IrTo(deviceId, "Off"));
    }

    /** The fetched command list arrives. */
    method CommandsFetched(response: seq<string>)
      modifies this`commands
      ensures commands == response
    {
      commands := response;
    }

    /** The stored on/off value arrives and becomes the mirror as it is. */
    method StoredOnRead(stored: bool)
      modifies this`on
      ensures on == stored
    {
      on := stored;
    }

    /**
     * Without commands nothing happens. Otherwise the negation of the request
     * is written to storage, On or Off is sent, and the mirror takes the value.
     */
    method SetOn(value: bool)
      modifies this`on, this`storage, channel
      ensures commands == [] ==> on == old(on) && storage == old(storage) && channel.sent == old(channel.sent)
      ensures commands != [] ==>
        && on == value
        && storage == old(storage)[OnKey := !value]
        && channel.sent == old(channel.sent) + [IrTo(deviceId, if value then "On" else "Off")]
    {
      if |commands| == 0 {
        return;
      }
      var command := IrTo(deviceId, "Off");
      var stateOn := true;
      if value {
        command := IrTo(deviceId, "On");
        stateOn := false;
      }
      storage := storage[OnKey := stateOn];
      channel.SendData(command);
      on := value;
    }

    /** The mirror, without touching the device. */
    method GetOn() returns (isOn: bool)
      ensures isOn == on
    {
      isOn := on;
    }

    /** The hue is always stored; a colour is chosen and sent only once commands are known. */
    method SetHue(value: real)
      modifies this`hue, this`saturation, channel
      ensures hue == value && on == old(on)
      ensures commands == [] ==> saturation == old(saturation) && channel.sent == old(channel.sent)
      ensures commands != [] ==>
        && saturation == (if old(saturation) < 5.0 then -1.0 else old(saturation))
        && channel.sent == old(channel.sent) + [IrTo(deviceId, Code(Colour(value, old(saturation))))]
    {
      hue := value;
      if |commands| == 0 {
        return;
      }
      var color := Unmatched;
      if saturation < 5.0 {
        saturation := -1.0;
        color := White;
      } else if hue >= 40.0 && hue < 70.0 {
        color := Yellow;
      } else if (hue >= 0.0 && hue < 40.0) || (hue >= 340.0 && hue < 360.0) {
        color := Red;
      } else if hue >= 277.0 && hue < 340.0 {
        color := Violet;
      } else if hue >= 164.0 && hue < 277.0 {
        color := Blue;
      } else if hue >= 70.0 && hue < 164.0 {
        color := Green;
      }
      channel.SendData(IrTo(deviceId, Code(color)));
    }

    method SetSaturation(value: real)
      modifies this`saturation
      ensures saturation == value
    {
      saturation := value;
    }
  }
}
