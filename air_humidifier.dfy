/**
 * The humidifier controller. The device only knows a power toggle, so every
 * request sends the toggle and the mirror simply takes the requested value.
 */
module AirHumidifierModel {
  import opened Platform
  import opened Commands

  class AirHumidifier {
    const channel: Channel
    /** `device.external.id` of the accessory's context. */
    const deviceId: string
    var on: bool

    constructor (channel: Channel, accessory: PlatformAccessory)
      ensures this.channel == channel && deviceId == accessory.device.external.id
      ensures !on
    {
      this.channel := channel;
      deviceId := accessory.device.external.id;
      on := false;
    }

    method GetOn() returns (isOn: bool)
      ensures isOn == on
    {
      isOn := on;
    }

    method SetOn(value: bool)
      modifies this`on, channel
      ensures on == value
      ensures channel.sent == old(channel.sent) + [IrTo(deviceId, "PowerToggle")]
    {
      channel.SendData(IrTo(deviceId, "PowerToggle"));
      on := value;
    }
  }
}
