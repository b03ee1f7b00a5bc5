# PlayerSession — a Dafny model

This project models the per-connection player session of the SS3D server
(`SS3d_server/Modules/PlayerSession.cs`). A session holds one connection,
a status (`Zombie`, `Connected`, `InLobby`, `InGame`, `Disconnected`),
a display name, and at most one attached atom (a controllable world
entity). On the inbound side it reads a one-byte discriminant and either
re-enters the lobby or decodes a verb and routes it. Uid 0 selects the
global verbs (`joingame`, `save`/`toxins`). Any other uid forwards the
verb to the atom with that uid. On the outbound side it emits fixed-layout
messages to its own connection.

Layout of the project:

- `protocol.dfy`. Module `Wrappers` holds `Option`. Module `Protocol`
  holds the typed message fields and the outbound layouts (`Layout`)
  with their decoder (`DecodeOutbound`). It also holds the inbound reader
  (`Parse`) with the client-side writer that inverts it (`EncodeRequest`).
- `session_model.dfy`. Module `SessionModel` gives the session's own
  fields as a value (`SessionState`) and has one transition function per
  operation. Its lemmas cover any sequence of calls (`Run`).
- `world.dfy`. Module `World` holds the `Atom` class and the `Server`
  context. `Server` has the run-level, the uid-to-atom registry and the
  log of persistence requests. It also holds the pure effects of detach
  (`Released`) and of attach (`Controlled`) on an atom.
- `player_session.dfy`. Module `Sessions` holds the `PlayerSession`
  class. Each method's `ensures` gives its new session state as a
  `SessionModel` transition of the old one. It also states the method's
  effect on atoms and on the server, and its `modifies` clause bounds
  what it may change.
- `scenarios.dfy`. Module `Scenarios` holds client methods built only
  from those contracts: re-attach, double detach, two sessions sharing
  one atom, control kept across inbound messages, and a received "save".

Collaborators are made explicit:

- The process-wide singletons become a `Server` argument or a run-level
  argument.
- The network send becomes an append to the session's `sent` sequence.
  Each entry records the recipient connection and the message fields.
- The component factory becomes the three component names the source
  asks it for.

The code does not enforce the following, and neither does the model:

- Nothing keeps a connectionless ("zombie") session silent. `JoinLobby`
  sends whatever the client is (`SessionModel.ZombieJoinLobbySends`).
- Nothing keeps a `Disconnected` session out of the lobby
  (`SessionModel.DisconnectedRejoinsLobby`).
- Exclusive control of an atom is not enforced. `AttachToAtom` never
  checks whether another session holds the atom
  (`Scenarios.SharedAtomNotExclusive`).
- A verb aimed at a uid that does not resolve is not handled: the lookup
  result is dereferenced unguarded. The model makes resolution a
  precondition and adds no not-found path.

## Model

| member | source | states |
|---|---|---|
| `Sessions.PlayerSession.constructor` | SS3d_server/Modules/PlayerSession.cs:26-35 | Without a client: status `Zombie`, no atom, empty name, nothing sent. With a client: `Connected`, then `InLobby`, with exactly one `[PlayerSessionMessage, JoinLobby]` sent to that client. |
| `Sessions.PlayerSession.AttachToAtom` | SS3d_server/Modules/PlayerSession.cs:37-47 | The previous atom is released first: its controller is cleared, it dies once and loses Input/Mover/Actor. Then `a` is attached, controlled by this session's client, and holds the three named components. Exactly one attach notice carrying `a.uid` is appended. Re-attaching the same atom kills it once and re-grants control. |
| `Sessions.PlayerSession.DetachFromAtom` | SS3d_server/Modules/PlayerSession.cs:49-60 | With an atom attached: that atom is cleared of its controller, dies once and loses exactly the three control families, and the session holds no atom. With none attached: nothing changes. |
| `Sessions.PlayerSession.SendAttachMessage` | SS3d_server/Modules/PlayerSession.cs:62-69 | Appends `[PlayerSessionMessage, AttachToAtom, uid]` for the attached atom, addressed to the session's client; nothing else changes. |
| `Sessions.PlayerSession.HandleNetworkMessage` | SS3d_server/Modules/PlayerSession.cs:71-85 | A `Verb` discriminant acts as `DispatchVerb` on the decoded string and int32. `JoinLobby` acts as `JoinLobby()`. Any other discriminant changes nothing. An unreadable message reports failure and changes nothing. The session keeps the same attached atom object in every case. |
| `Sessions.PlayerSession.HandleVerb` | SS3d_server/Modules/PlayerSession.cs:87-90 | Reads the verb name and then the int32 target, and dispatches them. If either read fails, nothing changes. The session keeps the same attached atom object. |
| `Sessions.PlayerSession.DispatchVerb` | SS3d_server/Modules/PlayerSession.cs:92-119 | At uid 0: `joingame` is `JoinGame` at the server's run-level. `save` and `toxins` each append exactly `[SaveAtoms, SaveMap]`. Anything else changes nothing. At any other uid the resolved atom receives the verb exactly once, and the session (including its attached atom object), the run-level, the registry and the persistence log are unchanged. |
| `Sessions.PlayerSession.SetName` | SS3d_server/Modules/PlayerSession.cs:123-131 | The session's name becomes `n`. An attached atom's name becomes `n` too, and nothing else about it changes. Requires a client, because the log line dereferences it. |
| `Sessions.PlayerSession.JoinLobby` | SS3d_server/Modules/PlayerSession.cs:133-140 | From any state: status `InLobby` and exactly one `[PlayerSessionMessage, JoinLobby]` appended to the session's client. |
| `Sessions.PlayerSession.JoinGame` | SS3d_server/Modules/PlayerSession.cs:142-152 | Status becomes `InGame` with exactly one `[JoinGame]` appended iff there is a client, the status is not `InGame` and the run-level is `Game`. Otherwise nothing changes. |
| `Sessions.PlayerSession.OnConnect` | SS3d_server/Modules/PlayerSession.cs:154-160 | Passes through `Connected` into the lobby, with one lobby notice sent. |
| `Sessions.PlayerSession.OnDisconnect` | SS3d_server/Modules/PlayerSession.cs:162-166 | Status `Disconnected` and no atom attached. A previously attached atom is released and killed once. Nothing is sent. |
| `Sessions.PlayerSession.CreateGuiMessage` | SS3d_server/Modules/PlayerSession.cs:168-175 | Returns exactly `[PlayerUiMessage, ComponentMessage, gui]`, which decodes back to a GUI notice for `gui`. Sends nothing and changes nothing. |
| `Protocol.Layout` | SS3d_server/Modules/PlayerSession.cs:62-69 | Each outbound message starts with its family byte and decodes back to the message it was built from. |
| `Protocol.LayoutInjective` | SS3d_server/Modules/PlayerSession.cs:133-152 | Distinct outbound messages have distinct layouts. |
| `Protocol.ReadDiscriminantOfWritten` | SS3d_server/Modules/PlayerSession.cs:73 | A discriminant written first is read back as that discriminant, whatever follows it. |
| `Protocol.ReadVerbArgsOfWritten` | SS3d_server/Modules/PlayerSession.cs:89 | A string then an int32 written at any position are read back from that position as the same pair, whatever comes before or after. |
| `Protocol.Parse` | SS3d_server/Modules/PlayerSession.cs:71-90 | Every request read is well formed: an ignored request never carries the `Verb` or `JoinLobby` discriminant. |
| `Protocol.EncodeRequest` | SS3d_server/Modules/PlayerSession.cs:87-90 | Reading back what a client writes gives the same request (round trip). |
| `Protocol.ParseAcceptsOnlyEncodings` | SS3d_server/Modules/PlayerSession.cs:73-89 | Any message that is read successfully starts with the encoding of the request read (the converse of the round trip). |
| `Protocol.ParseIgnoresTrailing` | SS3d_server/Modules/PlayerSession.cs:71-90 | Fields after the ones read never change the result. |
| `SessionModel.Initial` | SS3d_server/Modules/PlayerSession.cs:26-35 | The constructed state: a zombie with nothing sent, or in the lobby with exactly one lobby notice to the client. |
| `SessionModel.ConnectStep` | SS3d_server/Modules/PlayerSession.cs:154-160 | Ends `InLobby` with one lobby notice to the client. |
| `SessionModel.JoinLobbyStep` | SS3d_server/Modules/PlayerSession.cs:133-140 | Ends `InLobby` with exactly one more lobby notice, whatever the prior state. |
| `SessionModel.JoinGameStep` | SS3d_server/Modules/PlayerSession.cs:142-152 | Both directions: ends `InGame` with exactly one more game notice iff all three conditions hold. Otherwise the state is unchanged. |
| `SessionModel.AttachStep` | SS3d_server/Modules/PlayerSession.cs:37-47 | Ends attached to the given uid with exactly one more attach notice naming it. |
| `SessionModel.DetachStep` | SS3d_server/Modules/PlayerSession.cs:49-60 | Ends with no atom and sends nothing. |
| `SessionModel.SetNameStep` | SS3d_server/Modules/PlayerSession.cs:123-131 | Only the name changes. |
| `SessionModel.DisconnectStep` | SS3d_server/Modules/PlayerSession.cs:162-166 | Ends `Disconnected` with no atom and sends nothing. |
| `SessionModel.RouteVerb` | SS3d_server/Modules/PlayerSession.cs:97-118 | Each is an iff: uid 0 with `joingame` is join-game, and uid 0 with `save` or `toxins` (the fall-through) is save. Every non-zero uid forwards the same verb name to that uid. |
| `SessionModel.SavesOnlyForSaveVerbs` | SS3d_server/Modules/PlayerSession.cs:97-109 | A dispatch reaches persistence iff the uid is 0 and the verb is `save` or `toxins`. When it does, it requests exactly one atom save then one map save. |
| `SessionModel.VerbStep` | SS3d_server/Modules/PlayerSession.cs:92-119 | Only `joingame` at uid 0 changes session state, and does so as `JoinGame`. |
| `SessionModel.MessageStep` | SS3d_server/Modules/PlayerSession.cs:71-85 | Unreadable and ignored messages change nothing. A lobby request is `JoinLobby`. A verb request is `DispatchVerb` of its fields. |
| `SessionModel.InitialConsistent` | SS3d_server/Modules/PlayerSession.cs:26-35 | A constructed session is consistent: it is not a zombie when it has a client, and everything it has sent went to its own client. |
| `SessionModel.ApplyConsistent` | SS3d_server/Modules/PlayerSession.cs:37-166 | Each public operation after construction, `OnConnect` included, keeps consistency, keeps what was already sent as a prefix, and sends at most one message. |
| `SessionModel.RunConsistent` | SS3d_server/Modules/PlayerSession.cs:37-166 | Over any sequence of calls to the public operations, `OnConnect` included, consistency holds, earlier messages are never withdrawn or reordered, and at most one message is sent per call. |
| `SessionModel.EverySessionConsistent` | SS3d_server/Modules/PlayerSession.cs:26-166 | Every constructed session stays consistent under any calls to the public operations, and sends at most one message per call plus the initial lobby notice. |
| `SessionModel.JoinGameTwice` | SS3d_server/Modules/PlayerSession.cs:142-152 | A second `JoinGame` at the same run-level changes nothing. |
| `SessionModel.JoinLobbyTwice` | SS3d_server/Modules/PlayerSession.cs:133-140 | Repeated `JoinLobby` stays `InLobby` and sends one notice per call. |
| `SessionModel.DetachTwice` | SS3d_server/Modules/PlayerSession.cs:49-60 | Detaching twice is detaching once. |
| `SessionModel.ReattachNotices` | SS3d_server/Modules/PlayerSession.cs:37-47 | The second attach adds exactly one notice, and it names the second atom. |
| `SessionModel.ZombieJoinLobbySends` | SS3d_server/Modules/PlayerSession.cs:133-140 | A zombie made to join the lobby goes to `InLobby` and sends a lobby notice addressed to no connection. |
| `SessionModel.DisconnectedRejoinsLobby` | SS3d_server/Modules/PlayerSession.cs:162-166 | A disconnected session made to join the lobby goes back to `InLobby`. |
| `SessionModel.ReceiveIsDispatch` | SS3d_server/Modules/PlayerSession.cs:87-90 | A received verb message acts exactly as dispatching its name and uid directly. |
| `World.Released` | SS3d_server/Modules/PlayerSession.cs:53-57 | Controller cleared, one more death, and exactly the Input/Mover/Actor components gone. Other components, the name and the verbs are kept. |
| `World.Controlled` | SS3d_server/Modules/PlayerSession.cs:40-44 | The controller becomes the given client. The three families map to KeyBindingInputComponent, PlayerInputMoverComponent and BasicActorComponent. Other components, deaths, the name and the verbs are kept. |
| `World.AttachThenReleaseIsRelease` | SS3d_server/Modules/PlayerSession.cs:37-60 | Attaching and then detaching leaves an atom exactly as detaching alone would. |
| `World.ReleasedHoldsNoControl` | SS3d_server/Modules/PlayerSession.cs:55-57 | A released atom holds none of the control families. |
| `World.Atom.Die` | SS3d_server/Modules/PlayerSession.cs:54 | Records one more death and changes nothing else. |
| `World.Atom.AddComponent` | SS3d_server/Modules/PlayerSession.cs:42-44 | The family now maps to the given component. |
| `World.Atom.RemoveComponent` | SS3d_server/Modules/PlayerSession.cs:55-57 | The family is gone. An absent family is tolerated. |
| `World.Atom.SetName` | SS3d_server/Modules/PlayerSession.cs:129 | Only the atom's name changes. |
| `World.Atom.HandleVerb` | SS3d_server/Modules/PlayerSession.cs:117 | The verb is appended to the atom's received verbs. |
| `World.Server.SaveAtoms` | SS3d_server/Modules/PlayerSession.cs:107 | One atom-save request is appended. |
| `World.Server.SaveMap` | SS3d_server/Modules/PlayerSession.cs:108 | One map-save request is appended. |
| `Scenarios.ReattachReleasesPrevious` | SS3d_server/Modules/PlayerSession.cs:37-60 | Attaching `b` over `e`: `e` is released and dies once, and `b` is controlled. The one notice added names `b`, not `e`. |
| `Scenarios.DetachTwiceIsDetachOnce` | SS3d_server/Modules/PlayerSession.cs:49-60 | Two detaches leave the state one detach leaves: one death, one release. |
| `Scenarios.SharedAtomNotExclusive` | SS3d_server/Modules/PlayerSession.cs:37-47 | Two sessions can both hold one atom. Only the later session's client controls it. |
| `Scenarios.ReceiveKeepsControl` | SS3d_server/Modules/PlayerSession.cs:71-119 | A session that controls its attached atom still holds the same atom, and still controls it, after handling any inbound message. |
| `Scenarios.ReceiveSave` | SS3d_server/Modules/PlayerSession.cs:71-119 | A received `save` at uid 0 requests one atom save then one map save, and leaves the session unchanged. |

## Left out

- Lidgren networking (`NetConnection`, `NetOutgoingMessage`, `NetIncomingMessage`) is not modelled. A connection is an opaque identity. A send is an append of `(recipient, fields)` to the session's `sent` sequence. What the transport does with a send to no connection is not modelled: the model assumes every send returns. In `JoinLobby` the send (line 138) comes before `status := InLobby` (line 139). If the transport throws on a null recipient, a zombie stays `Zombie`. `SessionModel.ZombieJoinLobbySends` concludes `InLobby` only under the assumption that the send returns.
- Wire encoding: the numeric byte values of the enumerations are defined outside PlayerSession.cs, so fields carry the enumerant they were written from. A one-byte field of another enumeration read as a session discriminant is treated as a failed read.
- Read failures: Lidgren's behaviour on a short or mistyped read is outside the model. The model treats it as a failure raised before the session changes anything, and reports it as `ok == false`.
- Logging (`LogManager.Log` and the address formatting) is a side-effect sink with no effect on state. Only the client dereference it implies is kept, as the `requires` of `SetName` and `OnConnect`.
- `SaveAtoms`, `SaveMap`, `Atom.Die`, `Atom.HandleVerb`, `AddComponent`, `RemoveComponent` and `Atom.SetName` belong to external classes. Each is modelled only by the record it leaves. `AddComponent` is assumed to replace any component of the same family.
- The relative order of calls across objects is not recorded. For example, that `e` dies before `b` receives its components follows from program order, not from a state the model keeps.
- `Sessions.PlayerSession.DispatchVerb`: requires the uid to resolve in the registry, because the code dereferences the lookup without a guard.
- `AttachToAtom(null)` is not modelled: the parameter is a non-null `Atom`. In the source, such a call first runs `DetachFromAtom` (line 39), which releases and kills the current atom (lines 51-58). It then throws at the dereference on line 40.
- `assignedJob` is never read or written by the session's code and is not modelled.
- Concurrency across sessions is not modelled. The session's code is sequential.
