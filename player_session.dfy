/**
  The per-connection player session: its status, its connection, the one
  atom it controls, its name, and the messages it has handed to the
  transport. Every method states its new session state through a
  transition function of `SessionModel`, and what it does to atoms and to
  the server alongside.
*/
module Sessions {
  import opened Wrappers
  import opened Protocol
  import opened SessionModel
  import opened World

  /** The atom a verb route acts on, if any. */
  function RouteTargets(r: Route, atoms: map<int32, Atom>): set<Atom> {
    if r.AtomVerb? && r.target in atoms then {atoms[r.target]} else {}
  }

  /** A verb addressed to an atom names one the registry holds. */
  predicate Resolves(r: Route, atoms: map<int32, Atom>) {
    r.AtomVerb? ==> r.target in atoms
  }

  class PlayerSession {
    var connectedClient: Option<Conn>
    var attachedAtom: Atom?
    var name: string
    var status: SessionStatus
    /** Every message handed to the transport, in order, with its recipient. */
    var sent: seq<Envelope>

    function State(): SessionState
      reads this
    {
      SessionState(connectedClient, if attachedAtom == null then None else Some(attachedAtom.uid),
                   name, status, sent)
    }

    /** The attached atom, if any, is controlled by this session's client through the three components. */
    predicate Controls()
      reads this, attachedAtom
    {
      attachedAtom != null ==>
        attachedAtom.attachedClient == connectedClient && ControlFamilies <= attachedAtom.components.Keys
    }

    constructor (client: Option<Conn>)
      ensures State() == Initial(client)
      ensures attachedAtom == null
    {
      connectedClient := client;
      attachedAtom := null;
      name := "";
      sent := [];
      new;
      if client.Some? {
        OnConnect();
      } else {
        status := Zombie;
      }
    }

    method AttachToAtom(a: Atom)
      modifies this, a, attachedAtom
      ensures State() == AttachStep(old(State()), a.uid)
      ensures attachedAtom == a && Controls()
      ensures a.State() ==
                Controlled(if old(attachedAtom) == a then Released(old(a.State())) else old(a.State()),
                           connectedClient)
      ensures old(attachedAtom) != null && old(attachedAtom) != a ==>
                old(attachedAtom).State() == Released(old(attachedAtom.State()))
    {
      DetachFromAtom();
      a.attachedClient := connectedClient;
      a.AddComponent(Input, InputComponent);
      a.AddComponent(Mover, MoverComponent);
      a.AddComponent(Actor, ActorComponent);
      attachedAtom := a;
      SendAttachMessage();
    }

    /** Releases the attached atom, killing it; with none attached, nothing changes. */
    method DetachFromAtom()
      modifies this, attachedAtom
      ensures State() == DetachStep(old(State()))
      ensures attachedAtom == null
      ensures old(attachedAtom) != null ==>
                old(attachedAtom).State() == Released(old(attachedAtom.State()))
      ensures old(attachedAtom) == null ==> State() == old(State())
    {
      if attachedAtom != null {
        ghost var before := attachedAtom.State();
        attachedAtom.attachedClient := None;
        attachedAtom.Die();
        attachedAtom.RemoveComponent(Input);
        attachedAtom.RemoveComponent(Mover);
        attachedAtom.RemoveComponent(Actor);
        assert attachedAtom.components == before.components - ControlFamilies;
        attachedAtom := null;
      }
    }

    method SendAttachMessage()
      requires attachedAtom != null
      modifies this
      ensures attachedAtom == old(attachedAtom)
      ensures State() == old(State()).(sent := old(sent) + [Envelope(connectedClient, Layout(AttachNotice(attachedAtom.uid)))])
    {
      sent := sent + [Envelope(connectedClient, Layout(AttachNotice(attachedAtom.uid)))];
    }

    /**
      Reads the discriminant and acts on it. `ok` is false when a field
      cannot be read; the read fails before anything is changed.
    */
    method HandleNetworkMessage(m: Message, server: Server) returns (ok: bool)
      requires Resolves(RouteOf(Parse(m)), server.atoms)
      modifies this, server, RouteTargets(RouteOf(Parse(m)), server.atoms)
      ensures ok == Parse(m).Some?
      ensures attachedAtom == old(attachedAtom)
      ensures State() == MessageStep(old(State()), m, old(server.runlevel))
      ensures server.runlevel == old(server.runlevel) && server.atoms == old(server.atoms)
      ensures server.persistence == old(server.persistence) + SavesFor(RouteOf(Parse(m)))
      ensures RouteOf(Parse(m)).AtomVerb? ==>
                var target := server.atoms[RouteOf(Parse(m)).target];
                target.State() == old(target.State()).(verbs := old(target.verbs) + [RouteOf(Parse(m)).verb])
    {
      var kind := ReadDiscriminant(m);
      if kind.None? {
        return false;
      }
      match kind.value
      case Verb =>
        ok := HandleVerb(m, server);
      case JoinLobby =>
        JoinLobby();
        ok := true;
      case _ =>
        ok := true;
    }

    /** Reads a verb's name and target uid from the fields after the discriminant, then dispatches it. */
    method HandleVerb(m: Message, server: Server) returns (ok: bool)
      requires ReadDiscriminant(m) == Some(SessionMessageType.Verb)
      requires Resolves(RouteOf(Parse(m)), server.atoms)
      modifies this, server, RouteTargets(RouteOf(Parse(m)), server.atoms)
      ensures ok == Parse(m).Some?
      ensures attachedAtom == old(attachedAtom)
      ensures State() == MessageStep(old(State()), m, old(server.runlevel))
      ensures server.runlevel == old(server.runlevel) && server.atoms == old(server.atoms)
      ensures server.persistence == old(server.persistence) + SavesFor(RouteOf(Parse(m)))
      ensures RouteOf(Parse(m)).AtomVerb? ==>
                var target := server.atoms[RouteOf(Parse(m)).target];
                target.State() == old(target.State()).(verbs := old(target.verbs) + [RouteOf(Parse(m)).verb])
    {
      var args := ReadVerbArgs(m, 1);
      if args.None? {
        return false;
      }
      DispatchVerb(args.value.0, args.value.1, server);
      ok := true;
    }

    /**
      Uid 0 runs a global verb: "joingame" joins the game, "save" and
      "toxins" request a world save and a map save, anything else is
      ignored. Any other uid hands the verb name to that atom.
    */
    method DispatchVerb(verb: string, uid: int32, server: Server)
      requires Resolves(RouteVerb(verb, uid), server.atoms)
      modifies this, server, RouteTargets(RouteVerb(verb, uid), server.atoms)
      ensures attachedAtom == old(attachedAtom)
      ensures State() == VerbStep(old(State()), verb, uid, old(server.runlevel))
      ensures server.runlevel == old(server.runlevel) && server.atoms == old(server.atoms)
      ensures server.persistence == old(server.persistence) + SavesFor(RouteVerb(verb, uid))
      ensures uid != 0 ==>
                server.atoms[uid].State() == old(server.atoms[uid].State()).(verbs := old(server.atoms[uid].verbs) + [verb])
    {
      if uid == 0 {
        if verb == "joingame" {
          JoinGame(server.runlevel);
        } else if verb == "toxins" || verb == "save" {
          server.SaveAtoms();
          server.SaveMap();
        }
      } else {
        var targetAtom := server.atoms[uid];
        targetAtom.HandleVerb(verb);
      }
    }

    /** Needs a client: the name change is logged with the client's address. */
    method SetName(n: string)
      requires connectedClient.Some?
      modifies this, attachedAtom
      ensures State() == SetNameStep(old(State()), n)
      ensures attachedAtom == old(attachedAtom)
      ensures attachedAtom != null ==> attachedAtom.State() == old(attachedAtom.State()).(name := n)
    {
      name := n;
      if attachedAtom != null {
        attachedAtom.SetName(n);
      }
    }

    method JoinLobby()
      modifies this
      ensures State() == JoinLobbyStep(old(State()))
      ensures attachedAtom == old(attachedAtom)
    {
      sent := sent + [Envelope(connectedClient, Layout(LobbyNotice))];
      status := InLobby;
    }

    /** The run-level is read from the server context by the caller. */
    method JoinGame(runlevel: RunLevel)
      modifies this
      ensures State() == JoinGameStep(old(State()), runlevel)
      ensures attachedAtom == old(attachedAtom)
    {
      if connectedClient.Some? && status != InGame && runlevel == Game {
        sent := sent + [Envelope(connectedClient, Layout(GameNotice))];
        status := InGame;
      }
    }

    /** Needs a client: the connection is logged with the client's address. */
    method OnConnect()
      requires connectedClient.Some?
      modifies this
      ensures State() == ConnectStep(old(State()))
      ensures attachedAtom == old(attachedAtom)
    {
      status := Connected;
      JoinLobby();
    }

    method OnDisconnect()
      modifies this, attachedAtom
      ensures State() == DisconnectStep(old(State()))
      ensures attachedAtom == null
      ensures old(attachedAtom) != null ==>
                old(attachedAtom).State() == Released(old(attachedAtom.State()))
    {
      status := Disconnected;
      DetachFromAtom();
    }

    /** Builds the header of a GUI component message; the caller appends the payload and sends it. */
    method CreateGuiMessage(gui: GuiComponentType) returns (m: Message)
      ensures m == [Family(NetMessage.PlayerUiMessage), UiType(UiManagerMessage.ComponentMessage), GuiType(gui)]
      ensures DecodeOutbound(m) == Some(GuiNotice(gui))
    {
      m := Layout(GuiNotice(gui));
    }
  }
}
