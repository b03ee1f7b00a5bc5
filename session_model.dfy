/**
  The session-local state of a player session as a value, and one transition
  function per session operation. The `PlayerSession` class ties each of its
  methods to one of these functions; the lemmas here state what holds over
  any sequence of operations.
*/
module SessionModel {
  import opened Wrappers
  import opened Protocol

  datatype SessionStatus = Zombie | Connected | InLobby | InGame | Disconnected

  /** The server's phase; only `Game` is tested by the session. */
  datatype RunLevel = Game | OtherRunLevel(code: nat)

  /** One message handed to the transport, with the connection it was addressed to. */
  datatype Envelope = Envelope(to: Option<Conn>, message: Message)

  /** A session as its own fields see it; `attached` is the uid of the attached atom. */
  datatype SessionState = SessionState(
    client: Option<Conn>,
    attached: Option<int32>,
    name: string,
    status: SessionStatus,
    sent: seq<Envelope>)

  /** `OnConnect`: status `Connected`, then straight into the lobby. */
  function ConnectStep(s: SessionState): (r: SessionState)
    ensures r.status == InLobby
    ensures r.sent == s.sent + [Envelope(s.client, Layout(LobbyNotice))]
    ensures r.client == s.client && r.attached == s.attached && r.name == s.name
  {
    JoinLobbyStep(s.(status := Connected))
  }

  /** The constructor: a zombie without a client, otherwise connected and in the lobby. */
  function Initial(client: Option<Conn>): (s: SessionState)
    ensures s.client == client && s.attached == None && s.name == ""
    ensures client.None? ==> s.status == Zombie && s.sent == []
    ensures client.Some? ==> s.status == InLobby && s.sent == [Envelope(client, Layout(LobbyNotice))]
  {
    var blank := SessionState(client, None, "", Zombie, []);
    if client.Some? then ConnectStep(blank) else blank
  }

  /** `JoinLobby`: unconditional, whatever the status or the client. */
  function JoinLobbyStep(s: SessionState): (r: SessionState)
    ensures r.status == InLobby
    ensures r.sent == s.sent + [Envelope(s.client, Layout(LobbyNotice))]
    ensures r.client == s.client && r.attached == s.attached && r.name == s.name
  {
    s.(status := InLobby, sent := s.sent + [Envelope(s.client, Layout(LobbyNotice))])
  }

  /** The three conditions `JoinGame` tests. */
  predicate CanJoinGame(s: SessionState, runlevel: RunLevel) {
    s.client.Some? && s.status != InGame && runlevel == Game
  }

  /** `JoinGame`: to `InGame` with one notice when allowed, otherwise a silent no-op. */
  function JoinGameStep(s: SessionState, runlevel: RunLevel): (r: SessionState)
    ensures CanJoinGame(s, runlevel) <==>
              r.status == InGame && r.sent == s.sent + [Envelope(s.client, Layout(GameNotice))]
    ensures !CanJoinGame(s, runlevel) ==> r == s
    ensures r.client == s.client && r.attached == s.attached && r.name == s.name
  {
    if CanJoinGame(s, runlevel) then
      s.(status := InGame, sent := s.sent + [Envelope(s.client, Layout(GameNotice))])
    else s
  }

  /** `AttachToAtom`: the atom replaces any earlier one and one attach notice names it. */
  function AttachStep(s: SessionState, uid: int32): (r: SessionState)
    ensures r.attached == Some(uid)
    ensures r.sent == s.sent + [Envelope(s.client, Layout(AttachNotice(uid)))]
    ensures r.client == s.client && r.name == s.name && r.status == s.status
  {
    s.(attached := Some(uid), sent := s.sent + [Envelope(s.client, Layout(AttachNotice(uid)))])
  }

  /** `DetachFromAtom`, as far as the session's own fields go. */
  function DetachStep(s: SessionState): (r: SessionState)
    ensures r.attached == None
    ensures r.client == s.client && r.name == s.name && r.status == s.status && r.sent == s.sent
  {
    s.(attached := None)
  }

  function SetNameStep(s: SessionState, name: string): (r: SessionState)
    ensures r.name == name
    ensures r.client == s.client && r.attached == s.attached && r.status == s.status && r.sent == s.sent
  {
    s.(name := name)
  }

  /** `OnDisconnect`: status `Disconnected`, atom released, nothing sent. */
  function DisconnectStep(s: SessionState): (r: SessionState)
    ensures r.status == Disconnected && r.attached == None
    ensures r.client == s.client && r.name == s.name && r.sent == s.sent
  {
    DetachStep(s.(status := Disconnected))
  }

  /** Where `DispatchVerb` sends a verb. */
  datatype Route = JoinGameVerb | SaveVerb | IgnoredVerb | AtomVerb(target: int32, verb: string)

  /**
    The routing table: uid 0 selects the global verbs ("toxins" falls through
    to "save"); any other uid forwards the verb name unchanged to that atom.
  */
  function RouteVerb(verb: string, uid: int32): (r: Route)
    ensures r.AtomVerb? <==> uid != 0
    ensures r.AtomVerb? ==> r.target == uid && r.verb == verb
    ensures r == JoinGameVerb <==> uid == 0 && verb == "joingame"
    ensures r == SaveVerb <==> uid == 0 && (verb == "save" || verb == "toxins")
  {
    if uid == 0 then
      if verb == "joingame" then JoinGameVerb
      else if verb == "toxins" || verb == "save" then SaveVerb
      else IgnoredVerb
    else AtomVerb(uid, verb)
  }

  /** The world-save and map-save requests a dispatch makes, in order. */
  datatype PersistenceCall = SaveAtoms | SaveMap

  function SavesFor(r: Route): (calls: seq<PersistenceCall>)
    ensures r == SaveVerb ==> calls == [SaveAtoms, SaveMap]
    ensures r != SaveVerb ==> calls == []
  {
    if r == SaveVerb then [SaveAtoms, SaveMap] else []
  }

  /** Exactly the "save" and "toxins" verbs at uid 0 reach persistence, as one atom save then one map save. */
  lemma SavesOnlyForSaveVerbs(verb: string, uid: int32)
    ensures SavesFor(RouteVerb(verb, uid)) != [] <==> uid == 0 && (verb == "save" || verb == "toxins")
    ensures SavesFor(RouteVerb(verb, uid)) != [] ==> SavesFor(RouteVerb(verb, uid)) == [SaveAtoms, SaveMap]
  {
  }

  /** `DispatchVerb` on the session's own fields: only "joingame" at uid 0 touches them. */
  function VerbStep(s: SessionState, verb: string, uid: int32, runlevel: RunLevel): (r: SessionState)
    ensures uid == 0 && verb == "joingame" ==> r == JoinGameStep(s, runlevel)
    ensures !(uid == 0 && verb == "joingame") ==> r == s
  {
    if RouteVerb(verb, uid) == JoinGameVerb then JoinGameStep(s, runlevel) else s
  }

  /** The route an inbound message takes once read, if it is a verb. */
  function RouteOf(p: Option<Request>): Route {
    match p
    case Some(VerbRequest(verb, uid)) => RouteVerb(verb, uid)
    case _ => IgnoredVerb
  }

  /** `HandleNetworkMessage` on the session's own fields. */
  function MessageStep(s: SessionState, m: Message, runlevel: RunLevel): (r: SessionState)
    ensures Parse(m).None? ==> r == s
    ensures Parse(m) == Some(JoinLobbyRequest) ==> r == JoinLobbyStep(s)
    ensures Parse(m).Some? && Parse(m).value.IgnoredRequest? ==> r == s
    ensures Parse(m).Some? && Parse(m).value.VerbRequest? ==>
              r == VerbStep(s, Parse(m).value.verb, Parse(m).value.uid, runlevel)
  {
    match Parse(m)
    case None => s
    case Some(VerbRequest(verb, uid)) => VerbStep(s, verb, uid, runlevel)
    case Some(JoinLobbyRequest) => JoinLobbyStep(s)
    case Some(IgnoredRequest(_)) => s
  }

  /** A call made on a session from outside. */
  datatype Event =
    | ConnectCall
    | LobbyCall
    | GameCall(runlevel: RunLevel)
    | AttachCall(uid: int32)
    | DetachCall
    | RenameCall(name: string)
    | DisconnectCall
    | DispatchCall(verb: string, uid: int32, runlevel: RunLevel)
    | ReceiveCall(message: Message, runlevel: RunLevel)

  function Apply(s: SessionState, e: Event): SessionState {
    match e
    case ConnectCall => ConnectStep(s)
    case LobbyCall => JoinLobbyStep(s)
    case GameCall(rl) => JoinGameStep(s, rl)
    case AttachCall(uid) => AttachStep(s, uid)
    case DetachCall => DetachStep(s)
    case RenameCall(n) => SetNameStep(s, n)
    case DisconnectCall => DisconnectStep(s)
    case DispatchCall(verb, uid, rl) => VerbStep(s, verb, uid, rl)
    case ReceiveCall(m, rl) => MessageStep(s, m, rl)
  }

  function Run(s: SessionState, events: seq<Event>): SessionState
    decreases |events|
  {
    if events == [] then s else Run(Apply(s, events[0]), events[1..])
  }

  /**
    The session-level invariants: the connection never changes, a session with
    a real connection is never a zombie, and every message it sent went to
    its own connection.
  */
  ghost predicate Consistent(s: SessionState, client: Option<Conn>) {
    && s.client == client
    && (client.Some? ==> s.status != Zombie)
    && forall i :: 0 <= i < |s.sent| ==> s.sent[i].to == client
  }

  lemma InitialConsistent(client: Option<Conn>)
    ensures Consistent(Initial(client), client)
  {
  }

  /** One call keeps the invariants, keeps what was sent and sends at most one message. */
  lemma ApplyConsistent(s: SessionState, e: Event)
    requires Consistent(s, s.client)
    ensures Consistent(Apply(s, e), s.client)
    ensures s.sent <= Apply(s, e).sent && |Apply(s, e).sent| <= |s.sent| + 1
  {
  }

  /**
    Over any sequence of calls: the invariants hold throughout, earlier
    messages are never withdrawn or reordered, and each call sends at most one.
  */
  lemma {:induction false} RunConsistent(s: SessionState, events: seq<Event>)
    requires Consistent(s, s.client)
    ensures Consistent(Run(s, events), s.client)
    ensures s.sent <= Run(s, events).sent
    ensures |Run(s, events).sent| <= |s.sent| + |events|
    decreases |events|
  {
    if events != [] {
      var next := Apply(s, events[0]);
      ApplyConsistent(s, events[0]);
      RunConsistent(next, events[1..]);
    }
  }

  /** Every session a constructor makes keeps the invariants under any calls. */
  lemma {:induction false} EverySessionConsistent(client: Option<Conn>, events: seq<Event>)
    ensures Consistent(Run(Initial(client), events), client)
    ensures |Run(Initial(client), events).sent| <= (if client.Some? then 1 else 0) + |events|
  {
    InitialConsistent(client);
    RunConsistent(Initial(client), events);
  }

  /** A second `JoinGame` with the same run-level changes nothing. */
  lemma JoinGameTwice(s: SessionState, runlevel: RunLevel)
    ensures JoinGameStep(JoinGameStep(s, runlevel), runlevel) == JoinGameStep(s, runlevel)
  {
  }

  /** A second `JoinLobby` leaves the status at `InLobby` and sends a second notice. */
  lemma JoinLobbyTwice(s: SessionState)
    ensures JoinLobbyStep(JoinLobbyStep(s)).status == InLobby
    ensures JoinLobbyStep(JoinLobbyStep(s)).sent ==
              s.sent + [Envelope(s.client, Layout(LobbyNotice)), Envelope(s.client, Layout(LobbyNotice))]
  {
  }

  lemma DetachTwice(s: SessionState)
    ensures DetachStep(DetachStep(s)) == DetachStep(s)
  {
  }

  /** Attaching twice sends two notices, each naming the atom of its own call. */
  lemma ReattachNotices(s: SessionState, e: int32, b: int32)
    ensures AttachStep(AttachStep(s, e), b).attached == Some(b)
    ensures AttachStep(AttachStep(s, e), b).sent ==
              AttachStep(s, e).sent + [Envelope(s.client, Layout(AttachNotice(b)))]
  {
  }

  /** The code does not keep a connectionless session silent: `JoinLobby` still sends. */
  lemma ZombieJoinLobbySends()
    ensures Initial(None).status == Zombie
    ensures Run(Initial(None), [LobbyCall]).sent == [Envelope(None, Layout(LobbyNotice))]
    ensures Run(Initial(None), [LobbyCall]).status == InLobby
  {
  }

  /** Nor does it keep a disconnected session out of the lobby. */
  lemma DisconnectedRejoinsLobby(s: SessionState)
    ensures DisconnectStep(s).status == Disconnected
    ensures JoinLobbyStep(DisconnectStep(s)).status == InLobby
  {
  }

  /** An inbound verb message acts exactly as a direct dispatch of its fields. */
  lemma ReceiveIsDispatch(s: SessionState, verb: string, uid: int32, runlevel: RunLevel)
    ensures MessageStep(s, EncodeRequest(VerbRequest(verb, uid)), runlevel) == VerbStep(s, verb, uid, runlevel)
  {
  }
}
