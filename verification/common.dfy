/**
 Shared vocabulary of the worker/commander protocol: an optional value, a bus
 message, and the wire constants both ends agree on.
 */
module Common {

  /** A value that may be absent; the worker's queue uses `None` as its stop sentinel. */
  datatype Option<+T> = None | Some(value: T)

  /** One message on the publish/subscribe bus: a topic and a text payload. */
  datatype Message = Message(topic: string, payload: string)

  /** Separator of the delimited wire format `<id>|<command>`. */
  const Separator: char := '|'

  /** Field names of the structured wire format. */
  const ClientIdKey: string := "client_id"
  const CommandKey: string := "command"

  /** The broadcast target name the commander normalises to. */
  const AllTarget: string := "all"
}
