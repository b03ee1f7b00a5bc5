/**
  Client programs that use only the contracts of `Sessions.PlayerSession`:
  the re-attach, double-detach and shared-atom behaviours follow from them.
*/
module Scenarios {
  import opened Wrappers
  import opened Protocol
  import opened SessionModel
  import opened World
  import opened Sessions

  /** Attaching `b` while `e` is attached kills and releases `e`, and the one notice names `b`. */
  method ReattachReleasesPrevious(s: PlayerSession, e: Atom, b: Atom)
    requires s.attachedAtom == e && e != b
    modifies s, e, b
    ensures e.attachedClient == None && e.deaths == old(e.deaths) + 1
    ensures e.components.Keys == old(e.components.Keys) - ControlFamilies
    ensures s.attachedAtom == b && b.attachedClient == s.connectedClient
    ensures ControlFamilies <= b.components.Keys && b.deaths == old(b.deaths)
    ensures s.sent == old(s.sent) + [Envelope(s.connectedClient, Layout(AttachNotice(b.uid)))]
  {
    s.AttachToAtom(b);
  }

  /** A second detach changes nothing: no second death, no further removals. */
  method DetachTwiceIsDetachOnce(s: PlayerSession)
    modifies s, s.attachedAtom
    ensures s.attachedAtom == null && s.State() == DetachStep(old(s.State()))
    ensures old(s.attachedAtom) != null ==>
              old(s.attachedAtom).deaths == old(s.attachedAtom.deaths) + 1 &&
              old(s.attachedAtom).State() == Released(old(s.attachedAtom.State()))
  {
    s.DetachFromAtom();
    ghost var once := s.State();
    s.DetachFromAtom();
    assert s.State() == once;
  }

  /**
    Nothing stops two sessions from attaching the same atom: both then
    hold it, and only the later one's client controls it.
  */
  method SharedAtomNotExclusive(c1: Conn, c2: Conn, a: Atom) returns (s1: PlayerSession, s2: PlayerSession)
    requires c1 != c2
    modifies a
    ensures s1.attachedAtom == a && s2.attachedAtom == a
    ensures a.attachedClient == Some(c2)
    ensures !s1.Controls() && s2.Controls()
  {
    s1 := new PlayerSession(Some(c1));
    s2 := new PlayerSession(Some(c2));
    s1.AttachToAtom(a);
    s2.AttachToAtom(a);
  }

  /** A "save" verb received at uid 0 asks for one world save then one map save and sends nothing. */
  method ReceiveSave(s: PlayerSession, server: Server)
    modifies s, server
    ensures s.State() == old(s.State())
    ensures server.persistence == old(server.persistence) + [SaveAtoms, SaveMap]
  {
    var m := EncodeRequest(VerbRequest("save", 0));
    var ok := s.HandleNetworkMessage(m, server);
  }

  /** Handling any inbound message keeps the attached atom and the session's control of it. */
  method ReceiveKeepsControl(s: PlayerSession, m: Message, server: Server)
    requires s.Controls()
    requires Resolves(RouteOf(Parse(m)), server.atoms)
    modifies s, server, RouteTargets(RouteOf(Parse(m)), server.atoms)
    ensures s.attachedAtom == old(s.attachedAtom) && s.Controls()
  {
    var ok := s.HandleNetworkMessage(m, server);
  }
}
