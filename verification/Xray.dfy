/** The remote node: inbounds keyed by tag, each with a port and its clients. Calls follow the executable
    semantics of the repository's fake node; every call may also be broken in transit, applied or not. */
module Xray {
  import opened Domain

  /** What a client authenticates with: a stored credential version, the throwaway key of a rotation
      transition client, or something the panel did not put there. */
  datatype Secret = Version(version: int) | Throwaway | Foreign

  datatype Inbound = Inbound(port: int, clients: map<string, Secret>)

  /** `occupied`: ports somebody else listens on. Two ways in which nodes differ are kept open. `strict`: asking for the
      clients of an inbound that is not there is an error, as on a real node, rather than an empty list, as on the
      stand-in. `probes`: the client first tries to bind the port of a creation and refuses if anybody holds it, the
      inbound to be created included, as the deployed client does for ports it can see, rather than leaving it to the
      node, as on the stand-in. */
  datatype Node = Node(inbounds: map<string, Inbound>, occupied: set<int>, strict: bool, probes: bool)

  datatype Rpc =
    | CreateInbound(tag: string, port: int, client: string, secret: Secret)
    | RemoveInbound(tag: string)
    | AddUser(tag: string, id: string, secret: Secret)
    | RemoveUser(tag: string, id: string, expected: string)
    | ListInbounds
    | ListUsers(tag: string)

  datatype Answer = Ack | Tags(tags: set<string>) | Clients(ids: set<string>) | Refused(cause: Cause)

  datatype Fault = Clean | Broken(cause: Cause, applied: bool)

  function Put(n: Node, tag: string, inbound: Inbound): Node {
    n.(inbounds := n.inbounds[tag := inbound])
  }

  function Drop(n: Node, tag: string): Node {
    n.(inbounds := n.inbounds - {tag})
  }

  function Rejected(kind: ErrorKind): Answer { Refused(Cause(kind, false)) }

  /** A managed client other than `id` that may keep the inbound: the expected identity or its transition identity. */
  predicate HasSurvivor(clients: map<string, Secret>, id: string, expected: string) {
    (expected != id && expected in clients) ||
    (RotationSafetyId(expected) != id && RotationSafetyId(expected) in clients)
  }

  /** Somebody listens on the port: an outsider, or an inbound of the node. */
  predicate Bound(n: Node, port: int) {
    port in n.occupied || exists tag :: tag in n.inbounds && n.inbounds[tag].port == port
  }

  /** An undisturbed call. */
  function Perform(n: Node, rpc: Rpc): (Node, Answer) {
    match rpc
    case CreateInbound(tag, port, client, secret) =>
      if !IsPanelNamespace(tag) then (n, Rejected(InvalidArgument))
      else if n.probes && Bound(n, port) then (n, Rejected(PortUnavailable))
      else if tag in n.inbounds then (n, Rejected(InboundAlreadyExists))
      else
        // Registration is not atomic with listening: an occupied port still leaves the tag behind.
        var registered := Put(n, tag, Inbound(port, map[client := secret]));
        (registered, if port in n.occupied then Rejected(PortUnavailable) else Ack)
    case RemoveInbound(tag) =>
      if !IsPanelNamespace(tag) then (n, Rejected(InvalidArgument))
      else if tag !in n.inbounds then (n, Rejected(InboundNotFound))
      else (Drop(n, tag), Ack)
    case AddUser(tag, id, secret) =>
      if !IsPanelNamespace(tag) then (n, Rejected(InvalidArgument))
      else if tag !in n.inbounds then (n, Rejected(InboundNotFound))
      else
        var inbound := n.inbounds[tag];
        if id in inbound.clients then (n, Rejected(UserAlreadyExists))
        else (Put(n, tag, inbound.(clients := inbound.clients[id := secret])), Ack)
    case RemoveUser(tag, id, expected) =>
      if !IsPanelNamespace(tag) then (n, Rejected(InvalidArgument))
      else if expected == "" then (n, Rejected(InvalidArgument))
      else if tag !in n.inbounds then (n, Rejected(InboundNotFound))
      else
        var inbound := n.inbounds[tag];
        if id !in inbound.clients then (n, Rejected(UserNotFound))
        else if !HasSurvivor(inbound.clients, id, expected) then (n, Rejected(LastManagedClient))
        else (Put(n, tag, inbound.(clients := inbound.clients - {id})), Ack)
    case ListInbounds => (n, Tags(n.inbounds.Keys))
    case ListUsers(tag) =>
      (n, if tag in n.inbounds then Clients(n.inbounds[tag].clients.Keys)
          else if n.strict then Rejected(InboundNotFound) else Clients({}))
  }

  function Serve(n: Node, rpc: Rpc, fault: Fault): (Node, Answer) {
    match fault
    case Clean => Perform(n, rpc)
    case Broken(cause, applied) => (if applied then Perform(n, rpc).0 else n, Refused(cause))
  }

  /** The stand-in node's own creation: an existing tag and a port somebody else holds are answered as such even when a
      failure was scripted, the latter after the tag was registered. */
  function StandInCreate(n: Node, tag: string, port: int, client: string, secret: Secret, fault: Fault): (Node, Answer) {
    if tag in n.inbounds then (n, Rejected(InboundAlreadyExists))
    else
      var registered := Put(n, tag, Inbound(port, map[client := secret]));
      if port in n.occupied then (registered, Rejected(PortUnavailable))
      else match fault
        case Clean => (registered, Ack)
        case Broken(cause, applied) => (if applied then registered else n, Refused(cause))
  }

  /** It never does anything that a call of this model could not do, so what holds under every failure here holds of
      it; a real node may also lose a call to an occupied port on the way. */
  lemma StandInIsCovered(n: Node, tag: string, port: int, client: string, secret: Secret, fault: Fault)
    requires IsPanelNamespace(tag) && !n.probes
    ensures exists f :: (f == fault || f == Clean) &&
                        StandInCreate(n, tag, port, client, secret, fault) == Serve(n, CreateInbound(tag, port, client, secret), f)
  {
    var f := if tag in n.inbounds || port in n.occupied then Clean else fault;
    assert StandInCreate(n, tag, port, client, secret, fault) == Serve(n, CreateInbound(tag, port, client, secret), f);
  }

  /** Failures of the wire or of the node as a whole, as opposed to statements about the target. */
  predicate IsTransport(kind: ErrorKind) {
    kind !in {UserAlreadyExists, UserNotFound, PortUnavailable, InboundAlreadyExists, InboundNotFound, LastManagedClient}
  }

  predicate HonestFault(fault: Fault) {
    fault.Broken? ==> IsTransport(fault.cause.kind)
  }

  /** The node's state kept in place, one method per call. */
  class Adapter {
    var inbounds: map<string, Inbound>
    const occupied: set<int>
    const strict: bool
    const probes: bool

    constructor (n: Node)
      ensures State() == n
    {
      inbounds, occupied, strict, probes := n.inbounds, n.occupied, n.strict, n.probes;
    }

    ghost function State(): Node
      reads this
    {
      Node(inbounds, occupied, strict, probes)
    }

    method Create(tag: string, port: int, client: string, secret: Secret, fault: Fault) returns (answer: Answer)
      modifies this`inbounds
      ensures (State(), answer) == Serve(old(State()), CreateInbound(tag, port, client, secret), fault)
    {
      if !IsPanelNamespace(tag) {
        return if fault.Broken? then Refused(fault.cause) else Rejected(InvalidArgument);
      }
      if probes && (port in occupied || exists other :: other in inbounds && inbounds[other].port == port) {
        return if fault.Broken? then Refused(fault.cause) else Rejected(PortUnavailable);
      }
      if tag in inbounds {
        return if fault.Broken? then Refused(fault.cause) else Rejected(InboundAlreadyExists);
      }
      if fault.Clean? || fault.applied {
        inbounds := inbounds[tag := Inbound(port, map[client := secret])];
      }
      if fault.Broken? {
        return Refused(fault.cause);
      }
      return if port in occupied then Rejected(PortUnavailable) else Ack;
    }

    method Remove(tag: string, fault: Fault) returns (answer: Answer)
      modifies this`inbounds
      ensures (State(), answer) == Serve(old(State()), RemoveInbound(tag), fault)
    {
      if !IsPanelNamespace(tag) {
        return if fault.Broken? then Refused(fault.cause) else Rejected(InvalidArgument);
      }
      var existed := tag in inbounds;
      if existed && (fault.Clean? || fault.applied) {
        inbounds := inbounds - {tag};
      }
      if fault.Broken? {
        return Refused(fault.cause);
      }
      return if existed then Ack else Rejected(InboundNotFound);
    }

    method Add(tag: string, id: string, secret: Secret, fault: Fault) returns (answer: Answer)
      modifies this`inbounds
      ensures (State(), answer) == Serve(old(State()), AddUser(tag, id, secret), fault)
    {
      if !IsPanelNamespace(tag) {
        return if fault.Broken? then Refused(fault.cause) else Rejected(InvalidArgument);
      }
      if tag !in inbounds {
        return if fault.Broken? then Refused(fault.cause) else Rejected(InboundNotFound);
      }
      var existed := id in inbounds[tag].clients;
      if !existed && (fault.Clean? || fault.applied) {
        inbounds := inbounds[tag := inbounds[tag].(clients := inbounds[tag].clients[id := secret])];
      }
      if fault.Broken? {
        return Refused(fault.cause);
      }
      return if existed then Rejected(UserAlreadyExists) else Ack;
    }

    /** The guard is evaluated on the clients actually there, before any failure of the removal itself. */
    method RemoveClient(tag: string, id: string, expected: string, fault: Fault) returns (answer: Answer)
      modifies this`inbounds
      ensures (State(), answer) == Serve(old(State()), RemoveUser(tag, id, expected), fault)
    {
      var verdict := Ack;
      if !IsPanelNamespace(tag) || expected == "" {
        verdict := Rejected(InvalidArgument);
      } else if tag !in inbounds {
        verdict := Rejected(InboundNotFound);
      } else if id !in inbounds[tag].clients {
        verdict := Rejected(UserNotFound);
      } else if !HasSurvivor(inbounds[tag].clients, id, expected) {
        verdict := Rejected(LastManagedClient);
      } else if fault.Clean? || fault.applied {
        inbounds := inbounds[tag := inbounds[tag].(clients := inbounds[tag].clients - {id})];
      }
      return if fault.Broken? then Refused(fault.cause) else verdict;
    }

    method Tags(fault: Fault) returns (answer: Answer)
      ensures (State(), answer) == Serve(State(), ListInbounds, fault)
    {
      return if fault.Broken? then Refused(fault.cause) else Answer.Tags(inbounds.Keys);
    }

    method Users(tag: string, fault: Fault) returns (answer: Answer)
      ensures (State(), answer) == Serve(State(), ListUsers(tag), fault)
    {
      if fault.Broken? { return Refused(fault.cause); }
      if tag in inbounds { return Clients(inbounds[tag].clients.Keys); }
      return if strict then Rejected(InboundNotFound) else Clients({});
    }

    /** A restart drops every runtime inbound and its clients. */
    method Restart()
      modifies this`inbounds
      ensures State() == Node(map[], occupied, strict, probes)
    {
      inbounds := map[];
    }
  }
}
