/**
  The world a session acts on: atoms (controllable entities) and the server
  context holding the run-level, the uid-to-atom registry and the persistence
  requests. The atom's own operations (`Die`, `AddComponent`, `RemoveComponent`,
  `SetName`, `HandleVerb`) belong to external classes; each is modelled only by
  the record it leaves on the atom.
*/
module World {
  import opened Wrappers
  import opened Protocol
  import opened SessionModel

  /** A component family; a player's control rests on `Input`, `Mover` and `Actor`. */
  datatype Family = Input | Mover | Actor | OtherFamily(code: nat)

  const ControlFamilies: set<Family> := {Input, Mover, Actor}

  const InputComponent := "KeyBindingInputComponent"
  const MoverComponent := "PlayerInputMoverComponent"
  const ActorComponent := "BasicActorComponent"

  /** An atom's observable fields: its controller, components by family, deaths, name and verbs received. */
  datatype AtomState = AtomState(
    attachedClient: Option<Conn>,
    components: map<Family, string>,
    deaths: nat,
    name: string,
    verbs: seq<string>)

  /** What a session's detach does to an atom: no controller, one more death, no control components. */
  function Released(a: AtomState): (r: AtomState)
    ensures r.attachedClient == None && r.deaths == a.deaths + 1
    ensures r.components.Keys == a.components.Keys - ControlFamilies
    ensures forall f :: f in r.components ==> r.components[f] == a.components[f]
    ensures r.name == a.name && r.verbs == a.verbs
  {
    a.(attachedClient := None, deaths := a.deaths + 1, components := a.components - ControlFamilies)
  }

  /** What a session's attach does to an atom: the session's client controls it through the three components. */
  function Controlled(a: AtomState, client: Option<Conn>): (r: AtomState)
    ensures r.attachedClient == client && r.deaths == a.deaths
    ensures r.components.Keys == a.components.Keys + ControlFamilies
    ensures r.components[Input] == InputComponent
    ensures r.components[Mover] == MoverComponent
    ensures r.components[Actor] == ActorComponent
    ensures forall f :: f in a.components && f !in ControlFamilies ==> r.components[f] == a.components[f]
    ensures r.name == a.name && r.verbs == a.verbs
  {
    a.(attachedClient := client,
       components := a.components[Input := InputComponent][Mover := MoverComponent][Actor := ActorComponent])
  }

  /** Attaching and then detaching leaves an atom exactly as detaching alone would. */
  lemma AttachThenReleaseIsRelease(a: AtomState, client: Option<Conn>)
    ensures Released(Controlled(a, client)) == Released(a)
  {
  }

  /** A released atom holds none of the control components, whatever it held before. */
  lemma ReleasedHoldsNoControl(a: AtomState)
    ensures forall f :: f in ControlFamilies ==> f !in Released(a).components
  {
  }

  class Atom {
    const uid: int32
    var attachedClient: Option<Conn>
    var components: map<Family, string>
    var deaths: nat
    var name: string
    var verbs: seq<string>

    function State(): AtomState
      reads this
    {
      AtomState(attachedClient, components, deaths, name, verbs)
    }

    constructor (uid: int32)
      ensures this.uid == uid
      ensures State() == AtomState(None, map[], 0, "", [])
    {
      this.uid := uid;
      attachedClient := None;
      components := map[];
      deaths := 0;
      name := "";
      verbs := [];
    }

    /** The death hook, recorded as a count. */
    method Die()
      modifies this
      ensures State() == old(State()).(deaths := old(deaths) + 1)
    {
      deaths := deaths + 1;
    }

    method AddComponent(family: Family, component: string)
      modifies this
      ensures State() == old(State()).(components := old(components)[family := component])
    {
      components := components[family := component];
    }

    /** Removes the component of a family; absent is fine. */
    method RemoveComponent(family: Family)
      modifies this
      ensures State() == old(State()).(components := old(components) - {family})
    {
      components := components - {family};
    }

    method SetName(n: string)
      modifies this
      ensures State() == old(State()).(name := n)
    {
      name := n;
    }

    /** A verb addressed to this atom, recorded in arrival order. */
    method HandleVerb(verb: string)
      modifies this
      ensures State() == old(State()).(verbs := old(verbs) + [verb])
    {
      verbs := verbs + [verb];
    }
  }

  /** The shared server context: run-level, atom registry and persistence requests. */
  class Server {
    var runlevel: RunLevel
    var atoms: map<int32, Atom>
    var persistence: seq<PersistenceCall>

    constructor (runlevel: RunLevel, atoms: map<int32, Atom>)
      ensures this.runlevel == runlevel && this.atoms == atoms && persistence == []
    {
      this.runlevel := runlevel;
      this.atoms := atoms;
      persistence := [];
    }

    /** Requests that the atoms be written out. */
    method SaveAtoms()
      modifies this
      ensures runlevel == old(runlevel) && atoms == old(atoms)
      ensures persistence == old(persistence) + [PersistenceCall.SaveAtoms]
    {
      persistence := persistence + [PersistenceCall.SaveAtoms];
    }

    /** Requests that the map be written out. */
    method SaveMap()
      modifies this
      ensures runlevel == old(runlevel) && atoms == old(atoms)
      ensures persistence == old(persistence) + [PersistenceCall.SaveMap]
    {
      persistence := persistence + [PersistenceCall.SaveMap];
    }
  }
}
