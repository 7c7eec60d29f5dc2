/**
 * The television controller: power, remote keys and a speaker. It mirrors the
 * last requested power and volume values, and every set sends exactly one IR
 * command.
 */
module Television {
  import opened Platform
  import opened Commands
  import Hap

  /** The remote-key switch: eight keys are mapped, any other key gives the empty name. */
  function KeyCommand(key: int): (name: string)
    ensures name == "" <==> key !in {Hap.ARROW_UP, Hap.ARROW_DOWN, Hap.ARROW_LEFT, Hap.ARROW_RIGHT,
                                     Hap.EXIT, Hap.SELECT, Hap.BACK, Hap.INFORMATION}
    ensures key == Hap.SELECT <==> name == "Select"
    ensures key == Hap.BACK <==> name == "Return"
  {
    if key == Hap.ARROW_UP then "DirectionUp"
    else if key == Hap.ARROW_DOWN then "DirectionDown"
    else if key == Hap.ARROW_LEFT then "DirectionLeft"
    else if key == Hap.ARROW_RIGHT then "DirectionRight"
    else if key == Hap.EXIT then "Exit"
    else if key == Hap.SELECT then "Select"
    else if key == Hap.BACK then "Return"
    else if key == Hap.INFORMATION then "Info"
    else ""
  }

  class TV {
    const channel: Channel
    /** `device.external.id` of the accessory's context. */
    const deviceId: string
    var active: int
    var volume: int

    constructor (channel: Channel, accessory: PlatformAccessory)
      ensures this.channel == channel && deviceId == accessory.device.external.id
      ensures active == Hap.INACTIVE && volume == 16
    {
      this.channel := channel;
      deviceId := accessory.device.external.id;
      active, volume := Hap.INACTIVE, 16;
    }

    method GetTvActive() returns (value: int)
      ensures value == active
    {
      value := active;
    }

    /** Non-zero powers on, zero powers off; the mirror takes the value either way. */
    method SetTvActive(value: int)
      modifies this`active, channel
      ensures active == value
      ensures channel.sent == old(channel.sent) + [IrTo(deviceId, if value != 0 then "PowerOn" else "PowerOff")]
    {
      var command := IrTo(deviceId, "PowerOff");
      if value != 0 {
        command := IrTo(deviceId, "PowerOn");
      }
      channel.SendData(command);
      active := value;
    }

    /** A key press only sends; an unmapped key sends a command with an empty name. */
    method SetTvKeys(key: int)
      modifies channel
      ensures channel.sent == old(channel.sent) + [IrTo(deviceId, KeyCommand(key))]
    {
      channel.SendData(IrTo(deviceId, KeyCommand(key)));
    }

    method GetSpeakerVolume() returns (value: int)
      ensures value == volume
    {
      value := volume;
    }

    /** Non-zero turns the volume down, zero turns it up; the mirror takes the value. */
    method SetSpeakerVolume(value: int)
      modifies this`volume, channel
      ensures volume == value
      ensures channel.sent == old(channel.sent) + [IrTo(deviceId, if value != 0 then "VolumeDown" else "VolumeUp")]
    {
      var name := "VolumeUp";
      if value != 0 {
        name := "VolumeDown";
      }
      channel.SendData(IrTo(deviceId, name));
      volume := value;
    }
  }
}
