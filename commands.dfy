/**
 * What controllers send. A Harmony hub receives a command record naming an IR
 * command and the target device; a BroadLink hub receives the configured
 * payload. The transport is out of the model: `Channel` is an outbox, the
 * sequence of everything sent through it, in order.
 */
module Commands {
  const IRCommand: string := "IRCommand"

  /** `{ command, type, deviceId }` as built by the controllers. */
  datatype Command = Command(command: string, kind: string, deviceId: string)

  datatype Payload =
    | Ir(cmd: Command)          // a Harmony command record
    | Raw(data: string)         // a BroadLink payload looked up from `commands`

  /** An IR command of the kind every controller sends. */
  function IrTo(deviceId: string, name: string): Payload {
    Ir(Command(name, IRCommand, deviceId))
  }

  /** A hub's command channel: fire-and-forget, so only what was sent is kept. */
  class Channel {
    var sent: seq<Payload>

    constructor ()
      ensures sent == []
    {
      sent := [];
    }

    method SendData(p: Payload)
      modifies this
      ensures sent == old(sent) + [p]
    {
      sent := sent + [p];
    }
  }
}
