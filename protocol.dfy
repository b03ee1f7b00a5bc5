/** The conventional optional value, standing in for a nullable reference. */
module Wrappers {
  datatype Option<T> = None | Some(value: T)
}

/**
  The wire vocabulary of the player-session protocol.

  A message is a sequence of typed fields. The numeric byte values of the
  enumerations are not known to this model, so a one-byte field carries the
  enumerant it was written from; multi-byte fields are a 32-bit integer and a
  string. Outbound messages have a fixed layout (`Layout`), with a decoder
  (`DecodeOutbound`) as its inverse; inbound session messages are read by
  `Parse`, which the client-side writer `EncodeRequest` inverts.
*/
module Protocol {
  import opened Wrappers

  newtype int32 = x: int | -0x8000_0000 <= x < 0x8000_0000
  newtype byte = x: int | 0 <= x < 0x100

  /** An opaque transport peer; only its identity matters to a session. */
  datatype Conn = Conn(id: nat)

  /** The message family, the first byte of every outbound message. */
  datatype NetMessage =
    | PlayerSessionMessage
    | JoinGame
    | PlayerUiMessage
    | OtherNetMessage(code: nat)   // members of the enumeration this model does not use

  /** The sub-type byte of a session-protocol message, and the discriminant of an inbound one. */
  datatype SessionMessageType =
    | AttachToAtom
    | JoinLobby
    | Verb
    | OtherSessionMessage(code: nat)

  /** The sub-type byte of a user-interface message. */
  datatype UiManagerMessage = ComponentMessage | OtherUiMessage(code: nat)

  /** A GUI component kind, written as one byte. */
  datatype GuiComponentType = GuiComponentType(code: byte)

  datatype Field =
    | Family(family: NetMessage)
    | SessionType(session: SessionMessageType)
    | UiType(ui: UiManagerMessage)
    | GuiType(gui: GuiComponentType)
    | Int32(value: int32)
    | Text(text: string)

  type Message = seq<Field>

  /** The outbound messages a session builds. */
  datatype Outbound =
    | AttachNotice(uid: int32)
    | LobbyNotice
    | GameNotice
    | GuiNotice(gui: GuiComponentType)

  /** The fixed field layout of each outbound message: family, sub-type, payload. */
  function Layout(o: Outbound): (m: Message)
    ensures |m| >= 1 && m[0].Family?
    ensures DecodeOutbound(m) == Some(o)
  {
    match o
    case AttachNotice(uid) =>
      [Family(NetMessage.PlayerSessionMessage), SessionType(SessionMessageType.AttachToAtom), Int32(uid)]
    case LobbyNotice =>
      [Family(NetMessage.PlayerSessionMessage), SessionType(SessionMessageType.JoinLobby)]
    case GameNotice =>
      [Family(NetMessage.JoinGame)]
    case GuiNotice(g) =>
      [Family(NetMessage.PlayerUiMessage), UiType(UiManagerMessage.ComponentMessage), GuiType(g)]
  }

  /**
    What a peer reads back from an outbound message: the header fields in
    order; anything after them (a GUI message's caller-appended payload) is
    not looked at.
  */
  function DecodeOutbound(m: Message): Option<Outbound> {
    if |m| == 0 then None
    else match m[0]
      case Family(PlayerSessionMessage) =>
        if |m| >= 3 && m[1] == SessionType(SessionMessageType.AttachToAtom) && m[2].Int32? then
          Some(AttachNotice(m[2].value))
        else if |m| >= 2 && m[1] == SessionType(SessionMessageType.JoinLobby) then
          Some(LobbyNotice)
        else None
      case Family(JoinGame) => Some(GameNotice)
      case Family(PlayerUiMessage) =>
        if |m| >= 3 && m[1] == UiType(UiManagerMessage.ComponentMessage) && m[2].GuiType? then
          Some(GuiNotice(m[2].gui))
        else None
      case _ => None
  }

  lemma LayoutInjective(o1: Outbound, o2: Outbound)
    requires Layout(o1) == Layout(o2)
    ensures o1 == o2
  {
  }

  /** An inbound session message as the session's switch sees it. */
  datatype Request =
    | VerbRequest(verb: string, uid: int32)
    | JoinLobbyRequest
    | IgnoredRequest(kind: SessionMessageType)

  /** An ignored request carries a discriminant the switch does not name. */
  predicate WellFormedRequest(r: Request) {
    r.IgnoredRequest? ==> r.kind != SessionMessageType.Verb && r.kind != SessionMessageType.JoinLobby
  }

  /** Reads the one-byte discriminant at the start of an inbound message. */
  function ReadDiscriminant(m: Message): (r: Option<SessionMessageType>)
    ensures r.Some? <==> |m| >= 1 && m[0].SessionType?
    ensures r.Some? ==> m[0] == SessionType(r.value)
  {
    if |m| >= 1 && m[0].SessionType? then Some(m[0].session) else None
  }

  /** The discriminant a writer put first is what is read back, whatever follows it. */
  lemma ReadDiscriminantOfWritten(kind: SessionMessageType, rest: Message)
    ensures ReadDiscriminant([SessionType(kind)] + rest) == Some(kind)
  {
  }

  /** Reads a string and then a 32-bit integer, starting at field `pos`. */
  function ReadVerbArgs(m: Message, pos: nat): (r: Option<(string, int32)>)
    ensures r.Some? <==> pos + 2 <= |m| && m[pos].Text? && m[pos + 1].Int32?
    ensures r.Some? ==> m[pos] == Text(r.value.0) && m[pos + 1] == Int32(r.value.1)
  {
    if pos + 2 <= |m| && m[pos].Text? && m[pos + 1].Int32? then
      Some((m[pos].text, m[pos + 1].value))
    else None
  }

  /** A string and an int32 written at any position are read back there, whatever surrounds them. */
  lemma ReadVerbArgsOfWritten(prefix: Message, verb: string, uid: int32, rest: Message)
    ensures ReadVerbArgs(prefix + [Text(verb), Int32(uid)] + rest, |prefix|) == Some((verb, uid))
  {
    var m := prefix + [Text(verb), Int32(uid)] + rest;
    assert m[|prefix|] == Text(verb) && m[|prefix| + 1] == Int32(uid);
  }

  /**
    Reads an inbound session message: the discriminant, and for a verb its
    name then its target uid. `None` is a failed read (a missing or
    mistyped field), which the transport raises before the session acts.
    Fields after the ones read are not looked at.
  */
  function Parse(m: Message): (r: Option<Request>)
    ensures r.Some? ==> WellFormedRequest(r.value)
  {
    match ReadDiscriminant(m)
    case None => None
    case Some(Verb) =>
      (match ReadVerbArgs(m, 1)
       case None => None
       case Some((verb, uid)) => Some(VerbRequest(verb, uid)))
    case Some(JoinLobby) => Some(JoinLobbyRequest)
    case Some(k) => Some(IgnoredRequest(k))
  }

  /** The fields a client writes for a request. */
  function EncodeRequest(r: Request): (m: Message)
    requires WellFormedRequest(r)
    ensures Parse(m) == Some(r)
  {
    match r
    case VerbRequest(verb, uid) => [SessionType(SessionMessageType.Verb), Text(verb), Int32(uid)]
    case JoinLobbyRequest => [SessionType(SessionMessageType.JoinLobby)]
    case IgnoredRequest(k) => [SessionType(k)]
  }

  /** Every message `Parse` accepts starts with the encoding of what it returns. */
  lemma ParseAcceptsOnlyEncodings(m: Message)
    requires Parse(m).Some?
    ensures EncodeRequest(Parse(m).value) <= m
  {
  }

  /** Trailing fields never change what `Parse` reads. */
  lemma ParseIgnoresTrailing(m: Message, tail: Message)
    requires Parse(m).Some?
    ensures Parse(m + tail) == Parse(m)
  {
  }
}
