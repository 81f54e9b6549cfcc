/** The relay's wire format and the entries of a room's history. */
module Messages {

  datatype Option<T> = None | Some(value: T)

  datatype MsgType =
    | Encrypted | ClientEncrypted | ActiveSession | ResumeHello | ResumeFrom | ResumeAck | Connected
    | SharingStopped | ServerOffline | ErrorNotice | Other(name: string)

  /** The room's descriptive fields, persisted with the session. */
  datatype Meta = Meta(workspace: string, provider: string, model: string)

  /** The parts of a message the relay carries without looking inside: nonce, ciphertext and data. */
  datatype Body = Opaque(text: string) | SessionData(meta: Meta) | ResumeData(full: bool, count: nat)

  datatype Message = Message(
    typ: MsgType, sessionID: string, eventID: string, streamID: string, clientID: string,
    eventHash: string, generation: nat, epoch: nat, count: nat, lastEventID: string, body: Body)

  /** A byte string that decodes to `msg`; `text` is whatever else tells it from other encodings of
      `msg` (field order, spacing, unknown fields). Encoding and decoding JSON stay abstract this way. */
  datatype Raw = Raw(msg: Message, text: string)

  /** The canonical encoding of a message. */
  function Json(m: Message): Raw { Raw(m, "") }

  function Notice(typ: MsgType, sessionID: string, epoch: nat): Message {
    Message(typ, sessionID, "", "", "", "", 0, epoch, 0, "", Opaque(""))
  }

  datatype RoomEvent = RoomEvent(
    sessionID: string, eventID: string, streamID: string, eventHash: string, typ: MsgType, raw: Raw)

  function EventOf(raw: Raw, typ: MsgType): RoomEvent {
    RoomEvent(raw.msg.sessionID, raw.msg.eventID, raw.msg.streamID, raw.msg.eventHash, typ, raw)
  }
}
