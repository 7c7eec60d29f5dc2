/**
 * The Harmony LED-strip controller. It mirrors the last requested on/off,
 * hue and saturation, and sends IR commands to the strip's Harmony device id.
 */
module HarmonyLedStrip {
  import opened Platform
  import opened Commands
  import opened LightPresets

  class LedStrip {
    const channel: Channel
    /** `device.external.id` of the accessory's context. */
    const deviceId: string
    var on: bool
    var hue: real
    var saturation: real

    /** Construction forces the strip off. */
    constructor (channel: Channel, accessory: PlatformAccessory)
      modifies channel
      ensures this.channel == channel && deviceId == accessory.device.external.id
      ensures !on && hue == -1.0 && saturation == -1.0
      ensures channel.sent == old(channel.sent) + [IrTo(deviceId, "Off")]
    {
      this.channel := channel;
      deviceId := accessory.device.external.id;
      on, hue, saturation := false, -1.0, -1.0;
      new;
      channel.SendData(IrTo(deviceId, "Off"));
    }

    method SetOn(value: bool)
      modifies this`on, channel
      ensures on == value
      ensures channel.sent == old(channel.sent) + [IrTo(deviceId, if value then "On" else "Off")]
    {
      var command := IrTo(deviceId, "Off");
      if value {
        command := IrTo(deviceId, "On");
      }
      channel.SendData(command);
      on := value;
    }

    /**
     * The hue is stored first; the colour is then chosen from it and the
     * saturation, and a white choice resets the saturation to -1.
     */
    method SetHue(value: real)
      modifies this`hue, this`saturation, channel
      ensures hue == value && on == old(on)
      ensures saturation == if old(saturation) < 5.0 then -1.0 else old(saturation)
      ensures channel.sent == old(channel.sent) + [IrTo(deviceId, Code(Colour(value, old(saturation))))]
    {
      hue := value;
      var color := Unmatched;
      if saturation < 5.0 {
        saturation := -1.0;
        color := White;
      } else if hue >= 40.0 && hue < 70.0 {
        color := Yellow;
      } else if (hue >= 0.0 && hue < 40.0) || (hue >= 340.0 && hue < 360.0) {
        color := Red;
      } else if hue >= 277.0 && hue < 340.0 {
        color := Violet;
      } else if hue >= 164.0 && hue < 277.0 {
        color := Blue;
      } else if hue >= 70.0 && hue < 164.0 {
        color := Green;
      }
      channel.SendData(IrTo(deviceId, Code(color)));
    }

    method SetSaturation(value: real)
      modifies this`saturation
      ensures saturation == value
    {
      saturation := value;
    }
  }
}
