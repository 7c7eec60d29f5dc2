/**
 * The Denon AV-receiver controller: a television with power, ten inputs,
 * remote keys and a speaker. It mirrors the last requested power, input and
 * volume values, and every set sends exactly one IR command.
 */
module AvDenon {
  import opened Platform
  import opened Commands
  import Hap

  /** The input switch: values 1 to 10 name an input, 9 and 10 the same one. */
  function InputCommand(value: int): (name: string)
    ensures name == "PowerOff" <==> !(1 <= value <= 10)
    ensures name == "InputTvAudio" <==> value == 9 || value == 10
  {
    if value == 1 then "InputCbl/Sat"
    else if value == 2 then "InputDvd/Blu-ray"
    else if value == 3 then "InputFm"
    else if value == 4 then "InputBlu-ray"
    else if value == 5 then "InputGame"
    else if value == 6 then "InputAm"
    else if value == 7 then "InputMediaPlayer"
    else if value == 8 then "InputUsb"
    else if value == 9 then "InputTvAudio"
    else if value == 10 then "InputTvAudio"
    else "PowerOff"
  }

  /** Only inputs 9 and 10 share a command; every other input has its own. */
  lemma InputsDistinct(v: int, w: int)
    requires 1 <= v <= 10 && 1 <= w <= 10 && v != w
    requires InputCommand(v) == InputCommand(w)
    ensures {v, w} == {9, 10}
  {
  }

  /** The remote-key switch: seven keys are mapped, any other key gives the empty name. */
  function KeyCommand(key: int): (name: string)
    ensures name == "" <==> key !in {Hap.ARROW_UP, Hap.ARROW_DOWN, Hap.ARROW_LEFT, Hap.ARROW_RIGHT,
                                     Hap.SELECT, Hap.BACK, Hap.INFORMATION}
    ensures key == Hap.SELECT <==> name == "Enter"
    ensures key == Hap.BACK <==> name == "Back"
  {
    if key == Hap.ARROW_UP then "DirectionUp"
    else if key == Hap.ARROW_DOWN then "DirectionDown"
    else if key == Hap.ARROW_LEFT then "DirectionLeft"
    else if key == Hap.ARROW_RIGHT then "DirectionRight"
    else if key == Hap.SELECT then "Enter"
    else if key == Hap.BACK then "Back"
    else if key == Hap.INFORMATION then "Info"
    else ""
  }

  class AVDenon {
    const channel: Channel
    /** `device.external.id` of the accessory's context. */
    const deviceId: string
    var active: int
    var input: int
    var volume: int

    constructor (channel: Channel, accessory: PlatformAccessory)
      ensures this.channel == channel && deviceId == accessory.device.external.id
      ensures active == Hap.INACTIVE && input == 9 && volume == 16
    {
      this.channel := channel;
      deviceId := accessory.device.external.id;
      active, input, volume := Hap.INACTIVE, 9, 16;
    }

    method GetTvActive() returns (value: int)
      ensures value == active
    {
      value := active;
    }

    /** Non-zero powers on, zero powers off; the mirror takes the value either way. */
    method SetTvActive(value: int)
      modifies this`active, channel
      ensures active == value
      ensures channel.sent == old(channel.sent) + [IrTo(deviceId, if value != 0 then "PowerOn" else "PowerOff")]
    {
      var command := IrTo(deviceId, "PowerOff");
      if value != 0 {
        command := IrTo(deviceId, "PowerOn");
      }
      channel.SendData(command);
      active := value;
    }

    method GetTvInput() returns (value: int)
      ensures value == input
    {
      value := input;
    }

    /** A value outside 1 to 10 still sends (the default PowerOff) and is still mirrored. */
    method SetTvInput(value: int)
      modifies this`input, channel
      ensures input == value
      ensures channel.sent == old(channel.sent) + [IrTo(deviceId, InputCommand(value))]
    {
      var name := "PowerOff";
      if value == 1 {
        name := "InputCbl/Sat";
      } else if value == 2 {
        name := "InputDvd/Blu-ray";
      } else if value == 3 {
        name := "InputFm";
      } else if value == 4 {
        name := "InputBlu-ray";
      } else if value == 5 {
        name := "InputGame";
      } else if value == 6 {
        name := "InputAm";
      } else if value == 7 {
        name := "InputMediaPlayer";
      } else if value == 8 {
        name := "InputUsb";
      } else if value == 9 {
        name := "InputTvAudio";
      } else if value == 10 {
        name := "InputTvAudio";
      }
      channel.SendData(IrTo(deviceId, name));
      input := value;
    }

    /** A key press only sends; an unmapped key sends a command with an empty name. */
    method SetTvKeys(key: int)
      modifies channel
      ensures channel.sent == old(channel.sent) + [IrTo(deviceId, KeyCommand(key))]
    {
      channel.SendData(IrTo(deviceId, KeyCommand(key)));
    }

    method GetSpeakerVolume() returns (value: int)
      ensures value == volume
    {
      value := volume;
    }

    /** Non-zero turns the volume down, zero turns it up; the mirror takes the value. */
    method SetSpeakerVolume(value: int)
      modifies this`volume, channel
      ensures volume == value
      ensures channel.sent == old(channel.sent) + [IrTo(deviceId, if value != 0 then "VolumeDown" else "VolumeUp")]
    {
      var name := "VolumeUp";
      if value != 0 {
        name := "VolumeDown";
      }
      channel.SendData(IrTo(deviceId, name));
      volume := value;
    }
  }
}
