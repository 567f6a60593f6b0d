/** What one worker does to the node under any script of transport failures, crashes included: whatever it
    confirms is true of the node, and whatever it breaks off is repaired by the next undisturbed attempt. */
module Projection {
  import opened Domain
  import opened Xray
  import opened Synchronizer

  predicate Proper(w: Work) { IsPanelNamespace(w.tag) && w.expected != "" }

  predicate AllHonest(script: seq<Choice>) { forall i :: 0 <= i < |script| ==> Honest(script[i]) }

  function ClientsOf(n: Node, tag: string): map<string, Secret> {
    if tag in n.inbounds then n.inbounds[tag].clients else map[]
  }

  /** Every other inbound is exactly as before. */
  predicate OthersSame(n0: Node, n: Node, tag: string) {
    n.occupied == n0.occupied && n.strict == n0.strict && n.probes == n0.probes && n.inbounds - {tag} == n0.inbounds - {tag}
  }

  function Registered(w: Work, n: Node): Node
    requires w.Sync?
  {
    Put(n, w.tag, Inbound(w.port, map[w.expected := Version(w.version)]))
  }

  /** Creation leaves an existing inbound alone. */
  function Ensured(w: Work, n: Node): Node
    requires w.Sync?
  {
    if w.tag in n.inbounds then n else Registered(w, n)
  }

  /** Clients that are neither the expected identity nor its transition identity. */
  function Bystanders(w: Work, clients: map<string, Secret>): map<string, Secret> {
    clients - {w.expected, Safety(w)}
  }

  /** The inbound of a rotation: same tag, same port, same bystanders. */
  predicate Rotating(w: Work, n0: Node, n: Node) {
    && w.tag in n0.inbounds && w.tag in n.inbounds
    && OthersSame(n0, n, w.tag)
    && n.inbounds[w.tag].port == n0.inbounds[w.tag].port
    && Bystanders(w, n.inbounds[w.tag].clients) == Bystanders(w, n0.inbounds[w.tag].clients)
  }

  /** The inbound a completed rotation leaves: one expected client at the desired version beside the bystanders. */
  function Rotated(w: Work, n0: Node): Node
    requires w.Sync?
  {
    if w.tag in n0.inbounds then
      var inbound := n0.inbounds[w.tag];
      Put(n0, w.tag, inbound.(clients := Bystanders(w, inbound.clients)[w.expected := Version(w.version)]))
    else Registered(w, n0)
  }

  // ---- what is known at each program point ----

  predicate AtCreate(w: Work, n0: Node, pc: Pc, n: Node)
    requires w.Sync?
  {
    match pc
    case CreateUnseal | CreateFence | CreateCall => n == n0
    case UncertainFence(_) => n == n0 || n == Ensured(w, n0)
    case UncertainObserve(_) => n == n0 || n == Ensured(w, n0)
    case ResidueFence(k) => AtResidue(w, n0, k, n)
    case ResidueObserve(k) => AtResidue(w, n0, k, n)
    case ResidueHealthy => n == n0 && w.tag in n0.inbounds
    case CompensatePort | CompensateResidue => OthersSame(n0, n, w.tag)
    case End(o) => if o.Confirm? then o == Confirm(true, w.version) && n == Ensured(w, n0) else OthersSame(n0, n, w.tag)
    case _ => false
  }

  predicate AtResidue(w: Work, n0: Node, kind: ErrorKind, n: Node)
    requires w.Sync?
  {
    if kind == PortUnavailable then
      (w.tag !in n0.inbounds && n == Registered(w, n0)) || (n0.probes && Bound(n0, w.port) && n == n0)
    else kind == InboundAlreadyExists && w.tag in n0.inbounds && n == n0
  }

  predicate AtRemove(w: Work, n0: Node, pc: Pc, n: Node)
    requires w.Sync?
  {
    match pc
    case RemoveFence | RemoveCall => n == n0
    case RemoveFence2(_) => n == n0 || n == Drop(n0, w.tag)
    case RemoveObserve(_) => n == n0 || n == Drop(n0, w.tag)
    case End(o) => if o.Confirm? then o == Confirm(false, 0) && n == Drop(n0, w.tag) else OthersSame(n0, n, w.tag)
    case _ => false
  }

  predicate AtPort(w: Work, n0: Node, pc: Pc, n: Node)
    requires w.Sync?
  {
    match pc
    case PortFence | PortRemove => n == n0
    case End(o) => if o.Confirm? then AtCreate(w, Drop(n0, w.tag), pc, n) else OthersSame(n0, n, w.tag)
    case _ => AtCreate(w, Drop(n0, w.tag), pc, n)
  }

  /** Rotation of an inbound that is there: which of the two managed clients it holds. */
  predicate AtRotate(w: Work, n0: Node, pc: Pc, n: Node)
    requires w.Sync? && w.tag in n0.inbounds
  {
    Rotating(w, n0, n) &&
    var clients := n.inbounds[w.tag].clients;
    var guarded := Safety(w) in clients;
    var renewed := w.expected in clients && clients[w.expected] == Version(w.version);
    match pc
    case RotateFence | RotateList => true
    case SafetyUnseal(p) => !guarded && p == (w.expected in clients)
    case SafetyFence(p) => !guarded && p == (w.expected in clients)
    case SafetyAdd(p) => !guarded && p == (w.expected in clients)
    case SafetyFence2(p, _) => p == (w.expected in clients)
    case SafetyObserve(p, _) => p == (w.expected in clients)
    case OldFence | OldRemove => guarded && w.expected in clients
    case NewUnseal | NewFence | NewAdd => guarded && w.expected !in clients
    case NewFence2(_) => guarded && (w.expected in clients ==> renewed)
    case NewObserve(_) => guarded && (w.expected in clients ==> renewed)
    case CleanFence | CleanRemove => guarded && renewed
    case End(o) => o.Confirm? ==> o == Confirm(true, w.version) && !guarded && renewed
    case _ => false
  }

  /** Rotation of an inbound that is gone ends in creation. */
  predicate AtLostRotate(w: Work, n0: Node, pc: Pc, n: Node)
    requires w.Sync?
  {
    match pc
    case RotateFence | RotateList => n == n0
    case SafetyUnseal(p) => !p && n == n0
    case SafetyFence(p) => !p && n == n0
    case SafetyAdd(p) => !p && n == n0
    case SafetyFence2(p, _) => !p && n == n0
    case SafetyObserve(p, _) => !p && n == n0
    case _ => AtCreate(w, n0, pc, n)
  }

  predicate AtDrift(w: Work, n0: Node, pc: Pc, n: Node)
    requires w.Drift?
  {
    var removed := Perform(n0, DriftRemoveRpc(w)).0;
    match pc
    case DriftFence | DriftPeek | DriftRemove => n == n0
    case DriftFence2(_) => n == n0 || n == removed
    case DriftObserve(_) => n == n0 || n == removed
    case End(o) =>
      && (n == n0 || n == removed)
      && (o.Confirm? ==> if w.whole then w.tag !in n.inbounds else w.target !in ClientsOf(n, w.tag))
    case _ => false
  }

  predicate At(w: Work, n0: Node, pc: Pc, n: Node) {
    if w.Drift? then AtDrift(w, n0, pc, n)
    else if !w.presence then AtRemove(w, n0, pc, n)
    else if w.reason == PortChange then AtPort(w, n0, pc, n)
    else if w.reason != Rotate then AtCreate(w, n0, pc, n)
    else if w.tag in n0.inbounds then AtRotate(w, n0, pc, n)
    else AtLostRotate(w, n0, pc, n)
  }

  // ---- every step keeps what is known ----

  lemma DropSame(n: Node, tag: string)
    ensures tag !in n.inbounds ==> Drop(n, tag) == n
    ensures OthersSame(n, Drop(n, tag), tag)
  {
    if tag !in n.inbounds {
      assert n.inbounds - {tag} == n.inbounds;
    }
  }

  predicate IsResiduePc(pc: Pc) {
    pc.ResidueFence? || pc.ResidueObserve? || pc.ResidueHealthy? || pc.CompensatePort? || pc.CompensateResidue?
  }

  /** A listing leaves the node alone and, if it arrives, is true. */
  lemma ListingReply(n: Node, rpc: Rpc, fault: Fault)
    requires (rpc.ListInbounds? || rpc.ListUsers?) && HonestFault(fault)
    ensures var (n', answer) := Serve(n, rpc, fault);
            && n' == n
            && (answer.Tags? ==> answer.tags == n.inbounds.Keys)
            && (rpc.ListUsers? && rpc.tag in n.inbounds ==>
                  if answer.Clients? then answer.ids == n.inbounds[rpc.tag].clients.Keys
                  else answer.Refused? && answer.cause.kind != InboundNotFound)
            && (rpc.ListUsers? && rpc.tag !in n.inbounds && answer.Clients? ==> answer.ids == {})
  {
  }

  lemma CreateKeeps(w: Work, n0: Node, pc: Pc, n: Node, c: Choice)
    requires Proper(w) && w.Sync? && Fits(w, pc) && !pc.End?
    requires AtCreate(w, n0, pc, n) && Honest(c)
    ensures AtCreate(w, n0, Step(w, pc, n, c).0, Step(w, pc, n, c).1)
  {
    hide EmitDrift, EmitRotate, NextDrift, NextRotate, Drop, Serve, OthersSame;
    if IsResiduePc(pc) {
      ResidueKeeps(w, n0, pc, n, c);
    } else if pc.CreateCall? {
      CreationKeeps(w, n0, n, c);
    } else {
      AtCreateFrames(w, n0, pc, n);
      ListingReply(n, ListInbounds, c.fault);
    }
  }

  lemma CreationKeeps(w: Work, n0: Node, n: Node, c: Choice)
    requires Proper(w) && w.Sync? && n == n0 && Honest(c)
    ensures AtCreate(w, n0, Step(w, CreateCall, n, c).0, Step(w, CreateCall, n, c).1)
  {
    hide EmitDrift, EmitRotate, NextDrift, NextRotate, Drop;
    SelfSame(n, w.tag);
  }

  lemma SelfSame(n: Node, tag: string)
    ensures OthersSame(n, n, tag)
  {
  }

  lemma ResidueKeeps(w: Work, n0: Node, pc: Pc, n: Node, c: Choice)
    requires Proper(w) && w.Sync? && Fits(w, pc) && IsResiduePc(pc)
    requires AtCreate(w, n0, pc, n) && Honest(c)
    ensures AtCreate(w, n0, Step(w, pc, n, c).0, Step(w, pc, n, c).1)
  {
    hide EmitDrift, EmitRotate, NextDrift, NextRotate, Drop, OthersSame, Serve;
    if pc.CompensatePort? || pc.CompensateResidue? {
      CompensationKeeps(w, n0, pc, n, c);
    } else if pc.ResidueHealthy? {
      HealthKeeps(w, n0, n, c);
    } else if pc.ResidueObserve? {
      ResidueSeenKeeps(w, n0, pc, n, c);
    } else {
      AtCreateFrames(w, n0, pc, n);
    }
  }

  lemma ResidueSeenKeeps(w: Work, n0: Node, pc: Pc, n: Node, c: Choice)
    requires Proper(w) && w.Sync? && Fits(w, pc) && pc.ResidueObserve?
    requires AtResidue(w, n0, pc.kind, n) && Honest(c)
    ensures AtCreate(w, n0, Step(w, pc, n, c).0, Step(w, pc, n, c).1)
  {
    hide EmitDrift, EmitRotate, NextDrift, NextRotate, Drop, OthersSame, Serve;
    AtCreateFrames(w, n0, pc, n);
    ListingReply(n, ListInbounds, c.fault);
  }

  lemma HealthKeeps(w: Work, n0: Node, n: Node, c: Choice)
    requires Proper(w) && w.Sync? && n == n0 && w.tag in n0.inbounds && Honest(c)
    ensures AtCreate(w, n0, Step(w, ResidueHealthy, n, c).0, Step(w, ResidueHealthy, n, c).1)
  {
    hide EmitDrift, EmitRotate, NextDrift, NextRotate, Drop, OthersSame, Serve;
    SelfSame(n, w.tag);
    ListingReply(n, ListUsers(w.tag), c.fault);
  }

  lemma CompensationKeeps(w: Work, n0: Node, pc: Pc, n: Node, c: Choice)
    requires Proper(w) && w.Sync? && Fits(w, pc) && (pc.CompensatePort? || pc.CompensateResidue?)
    requires AtCreate(w, n0, pc, n) && Honest(c)
    ensures AtCreate(w, n0, Step(w, pc, n, c).0, Step(w, pc, n, c).1)
  {
    hide EmitDrift, EmitRotate, NextDrift, NextRotate;
    DropSame(n, w.tag);
  }

  lemma RemoveKeeps(w: Work, n0: Node, pc: Pc, n: Node, c: Choice)
    requires Proper(w) && w.Sync? && Fits(w, pc) && !pc.End?
    requires AtRemove(w, n0, pc, n) && Honest(c)
    ensures AtRemove(w, n0, Step(w, pc, n, c).0, Step(w, pc, n, c).1)
  {
    hide EmitDrift, EmitRotate, NextDrift, NextRotate;
    DropSame(n0, w.tag);
  }

  lemma PortKeeps(w: Work, n0: Node, pc: Pc, n: Node, c: Choice)
    requires Proper(w) && w.Sync? && Fits(w, pc) && !pc.End?
    requires AtPort(w, n0, pc, n) && Honest(c)
    ensures AtPort(w, n0, Step(w, pc, n, c).0, Step(w, pc, n, c).1)
  {
    hide EmitDrift, EmitRotate, NextDrift, NextRotate;
    DropSame(n0, w.tag);
    if !pc.PortFence? && !pc.PortRemove? {
      CreateKeeps(w, Drop(n0, w.tag), pc, n, c);
    }
  }

  lemma DriftKeeps(w: Work, n0: Node, pc: Pc, n: Node, c: Choice)
    requires w.Drift? && Fits(w, pc) && !pc.End?
    requires AtDrift(w, n0, pc, n) && Honest(c)
    ensures AtDrift(w, n0, Step(w, pc, n, c).0, Step(w, pc, n, c).1)
  {
    hide EmitCreate, EmitRotate, NextCreate, NextRotate;
  }

  lemma AdditionToNothing(w: Work, n: Node, fault: Fault)
    requires Proper(w) && w.Sync? && w.tag !in n.inbounds && HonestFault(fault)
    ensures var (n', answer) := Serve(n, AddUser(w.tag, Safety(w), Throwaway), fault);
            n' == n && answer.Refused? && answer.cause.kind != UserAlreadyExists
  {
  }

  lemma LostLookKeeps(w: Work, n0: Node, pc: Pc, n: Node, c: Choice)
    requires Proper(w) && w.Sync? && Fits(w, pc) && IsLookPc(pc) && w.tag !in n0.inbounds
    requires AtLostRotate(w, n0, pc, n) && Honest(c)
    ensures AtLostRotate(w, n0, Step(w, pc, n, c).0, Step(w, pc, n, c).1)
  {
    hide EmitDrift, EmitCreate, NextDrift, NextCreate, Serve, OthersSame, AtResidue;
    SelfSame(n, w.tag);
    ListingReply(n, ListUsers(w.tag), c.fault);
  }

  lemma LostSafetyKeeps(w: Work, n0: Node, pc: Pc, n: Node, c: Choice)
    requires Proper(w) && w.Sync? && Fits(w, pc) && IsSafetyPc(pc) && w.tag !in n0.inbounds
    requires AtLostRotate(w, n0, pc, n) && Honest(c)
    ensures AtLostRotate(w, n0, Step(w, pc, n, c).0, Step(w, pc, n, c).1)
  {
    hide EmitDrift, EmitCreate, NextDrift, NextCreate, Serve, OthersSame, AtResidue, Proper;
    SelfSame(n, w.tag);
    if pc.SafetyAdd? {
      AdditionToNothing(w, n, c.fault);
    } else {
      ListingReply(n, ListUsers(w.tag), c.fault);
    }
  }

  lemma LostRotateKeeps(w: Work, n0: Node, pc: Pc, n: Node, c: Choice)
    requires Proper(w) && w.Sync? && Fits(w, pc) && !pc.End? && w.tag !in n0.inbounds
    requires AtLostRotate(w, n0, pc, n) && Honest(c)
    ensures AtLostRotate(w, n0, Step(w, pc, n, c).0, Step(w, pc, n, c).1)
  {
    hide Step, OthersSame, AtResidue;
    if IsLookPc(pc) {
      LostLookKeeps(w, n0, pc, n, c);
    } else if IsSafetyPc(pc) {
      LostSafetyKeeps(w, n0, pc, n, c);
    } else {
      CreateKeeps(w, n0, pc, n, c);
    }
  }

  /** Adding or removing one of the two managed clients leaves the bystanders alone. */
  lemma ManagedClientsOnly(w: Work, n0: Node, n: Node, clients: map<string, Secret>)
    requires w.Sync? && Rotating(w, n0, n)
    requires Bystanders(w, clients) == Bystanders(w, n.inbounds[w.tag].clients)
    ensures Rotating(w, n0, Put(n, w.tag, n.inbounds[w.tag].(clients := clients)))
  {
    assert n.inbounds[w.tag := n.inbounds[w.tag].(clients := clients)] - {w.tag} == n.inbounds - {w.tag};
  }

  /** What a rotation's mutating call can do to the clients of its inbound. */
  function Mutated(w: Work, rpc: Rpc, clients: map<string, Secret>): map<string, Secret> {
    match rpc
    case AddUser(_, id, secret) => if id in clients then clients else clients[id := secret]
    case RemoveUser(_, id, _) => if HasSurvivor(clients, id, w.expected) then clients - {id} else clients
    case _ => clients
  }

  predicate IsRotationRpc(w: Work, rpc: Rpc) {
    match rpc
    case AddUser(tag, id, _) => tag == w.tag && id in {w.expected, Safety(w)}
    case RemoveUser(tag, id, expected) => tag == w.tag && expected == w.expected && id in {w.expected, Safety(w)}
    case ListUsers(tag) => tag == w.tag
    case _ => false
  }

  lemma RotationCall(w: Work, n0: Node, n: Node, rpc: Rpc)
    requires Proper(w) && w.Sync? && Rotating(w, n0, n) && IsRotationRpc(w, rpc)
    ensures Rotating(w, n0, Perform(n, rpc).0)
    ensures Perform(n, rpc).0.inbounds[w.tag].clients == Mutated(w, rpc, n.inbounds[w.tag].clients)
  {
    var clients := n.inbounds[w.tag].clients;
    var after := Mutated(w, rpc, clients);
    assert Bystanders(w, after) == Bystanders(w, clients);
    ManagedClientsOnly(w, n0, n, after);
    if rpc.RemoveUser? && rpc.id !in clients {
      assert clients - {rpc.id} == clients;
    }
    assert Put(n, w.tag, n.inbounds[w.tag]).inbounds == n.inbounds;
  }

  /** What the answer to such a call says, whatever became of it on the way. */
  lemma RotationReply(w: Work, n0: Node, n: Node, rpc: Rpc, fault: Fault)
    requires Proper(w) && w.Sync? && Rotating(w, n0, n) && IsRotationRpc(w, rpc) && HonestFault(fault)
    ensures var (n', answer) := Serve(n, rpc, fault);
            && Rotating(w, n0, n')
            && var before, after := n.inbounds[w.tag].clients, n'.inbounds[w.tag].clients;
               && (after == before || after == Mutated(w, rpc, before))
               && (answer.Refused? ==> answer.cause.kind != InboundNotFound)
               && match rpc
                  case AddUser(_, id, _) =>
                    && (answer.Ack? ==> id !in before && after == Mutated(w, rpc, before))
                    && (answer.Refused? && answer.cause.kind == UserAlreadyExists ==> id in before && after == before)
                  case RemoveUser(_, id, _) =>
                    && (answer.Ack? ==> after == before - {id})
                    && (answer.Refused? && answer.cause.kind == UserNotFound ==> id !in before && after == before)
                  case _ => after == before && (answer.Clients? ==> answer.ids == before.Keys)
  {
    hide Bystanders, OthersSame, HasSurvivor;
    RotationCall(w, n0, n, rpc);
  }

  lemma RotateKeeps(w: Work, n0: Node, pc: Pc, n: Node, c: Choice)
    requires Proper(w) && w.Sync? && Fits(w, pc) && !pc.End? && w.tag in n0.inbounds
    requires AtRotate(w, n0, pc, n) && Honest(c)
    ensures AtRotate(w, n0, Step(w, pc, n, c).0, Step(w, pc, n, c).1)
  {
    hide AtRotate, Step;
    if IsLookPc(pc) {
      LookKeeps(w, n0, pc, n, c);
    } else if IsSafetyPc(pc) {
      SafetyKeeps(w, n0, pc, n, c);
    } else if IsNewPc(pc) {
      NewKeeps(w, n0, pc, n, c);
    } else {
      RenewalKeeps(w, n0, pc, n, c);
    }
  }

  lemma NewKeeps(w: Work, n0: Node, pc: Pc, n: Node, c: Choice)
    requires Proper(w) && w.Sync? && Fits(w, pc) && w.tag in n0.inbounds && IsNewPc(pc)
    requires AtRotate(w, n0, pc, n) && Honest(c)
    ensures AtRotate(w, n0, Step(w, pc, n, c).0, Step(w, pc, n, c).1)
  {
    hide EmitDrift, EmitCreate, NextDrift, NextCreate, Rotating, Serve;
    var e := Emit(w, pc);
    if e.Call? {
      RotationReply(w, n0, n, e.rpc, c.fault);
    }
  }

  lemma SafetyKeeps(w: Work, n0: Node, pc: Pc, n: Node, c: Choice)
    requires Proper(w) && w.Sync? && Fits(w, pc) && w.tag in n0.inbounds && IsSafetyPc(pc)
    requires AtRotate(w, n0, pc, n) && Honest(c)
    ensures AtRotate(w, n0, Step(w, pc, n, c).0, Step(w, pc, n, c).1)
  {
    hide EmitDrift, EmitCreate, NextDrift, NextCreate, Rotating, Serve;
    var e := Emit(w, pc);
    if e.Call? {
      RotationReply(w, n0, n, e.rpc, c.fault);
    }
  }

  lemma LookKeeps(w: Work, n0: Node, pc: Pc, n: Node, c: Choice)
    requires Proper(w) && w.Sync? && Fits(w, pc) && w.tag in n0.inbounds && IsLookPc(pc)
    requires AtRotate(w, n0, pc, n) && Honest(c)
    ensures AtRotate(w, n0, Step(w, pc, n, c).0, Step(w, pc, n, c).1)
  {
    hide EmitDrift, EmitCreate, NextDrift, NextCreate, Rotating, Serve;
    if pc.RotateList? {
      RotationReply(w, n0, n, ListUsers(w.tag), c.fault);
    }
  }

  lemma RenewalKeeps(w: Work, n0: Node, pc: Pc, n: Node, c: Choice)
    requires Proper(w) && w.Sync? && Fits(w, pc) && w.tag in n0.inbounds && !pc.End?
    requires !IsLookPc(pc) && !IsSafetyPc(pc) && !IsNewPc(pc)
    requires AtRotate(w, n0, pc, n) && Honest(c)
    ensures AtRotate(w, n0, Step(w, pc, n, c).0, Step(w, pc, n, c).1)
  {
    hide EmitDrift, EmitCreate, NextDrift, NextCreate, Rotating, Serve;
    var e := Emit(w, pc);
    if e.Call? {
      RotationReply(w, n0, n, e.rpc, c.fault);
    }
  }

  lemma StepKeeps(w: Work, n0: Node, pc: Pc, n: Node, c: Choice)
    requires (w.Sync? ==> Proper(w)) && Fits(w, pc) && !pc.End?
    requires At(w, n0, pc, n) && Honest(c)
    ensures At(w, n0, Step(w, pc, n, c).0, Step(w, pc, n, c).1)
  {
    hide Step, AtCreate, AtRemove, AtPort, AtRotate, AtLostRotate, AtDrift;
    if w.Drift? {
      DriftKeeps(w, n0, pc, n, c);
    } else if !w.presence {
      RemoveKeeps(w, n0, pc, n, c);
    } else if w.reason == PortChange {
      PortKeeps(w, n0, pc, n, c);
    } else if w.reason != Rotate {
      CreateKeeps(w, n0, pc, n, c);
    } else if w.tag in n0.inbounds {
      RotateKeeps(w, n0, pc, n, c);
    } else {
      LostRotateKeeps(w, n0, pc, n, c);
    }
  }

  lemma {:induction false} FinishKeeps(w: Work, n0: Node, pc: Pc, n: Node, script: seq<Choice>)
    requires (w.Sync? ==> Proper(w)) && Fits(w, pc)
    requires At(w, n0, pc, n) && AllHonest(script)
    ensures var (o, n') := Finish(w, pc, n, script); At(w, n0, End(o), n')
    decreases Rank(pc)
  {
    hide At;
    if pc.End? {
      assert pc == End(pc.outcome);
    } else {
      StepKeeps(w, n0, pc, n, Head(script));
      var (pc', n') := Step(w, pc, n, Head(script));
      FinishKeeps(w, n0, pc', n', Tail(script));
    }
  }

  /** What holds of the node however far an attempt got. */
  predicate Framed(w: Work, n0: Node, n: Node) {
    && OthersSame(n0, n, w.tag)
    && (w.Sync? && w.presence && w.reason == Rotate && w.tag in n0.inbounds ==> Rotating(w, n0, n))
  }

  lemma AtIsFramed(w: Work, n0: Node, pc: Pc, n: Node)
    requires (w.Sync? ==> Proper(w)) && At(w, n0, pc, n)
    ensures Framed(w, n0, n)
  {
    if w.Drift? {
      PerformFrame(n0, DriftRemoveRpc(w), w.tag);
      hide AtCreate, AtRemove, AtPort, AtRotate, AtLostRotate;
      assert AtDrift(w, n0, pc, n);
    } else if w.presence && w.reason == Rotate && w.tag in n0.inbounds {
      hide AtCreate, AtRemove, AtPort, AtLostRotate, AtDrift;
      assert AtRotate(w, n0, pc, n);
    } else if !w.presence {
      DropSame(n0, w.tag);
      hide AtCreate, AtPort, AtRotate, AtLostRotate, AtDrift;
      assert AtRemove(w, n0, pc, n);
    } else {
      CreationIsFramed(w, n0, pc, n);
    }
  }

  lemma CreationIsFramed(w: Work, n0: Node, pc: Pc, n: Node)
    requires w.Sync? && w.presence && At(w, n0, pc, n) && !(w.reason == Rotate && w.tag in n0.inbounds)
    ensures OthersSame(n0, n, w.tag)
  {
    hide AtRemove, AtRotate, AtDrift, AtCreate, Drop, IsPanelNamespace;
    DropSame(n0, w.tag);
    if AtCreate(w, n0, pc, n) { AtCreateFrames(w, n0, pc, n); }
    if AtCreate(w, Drop(n0, w.tag), pc, n) { AtCreateFrames(w, Drop(n0, w.tag), pc, n); }
  }

  lemma AtCreateFrames(w: Work, n0: Node, pc: Pc, n: Node)
    requires w.Sync? && AtCreate(w, n0, pc, n)
    ensures OthersSame(n0, n, w.tag)
  {
    assert Registered(w, n0).inbounds - {w.tag} == n0.inbounds - {w.tag};
  }

  lemma FramedOthers(w: Work, n0: Node, pc: Pc, n: Node)
    requires (w.Sync? ==> Proper(w)) && At(w, n0, pc, n)
    ensures OthersSame(n0, n, w.tag)
  {
    hide At, OthersSame;
    AtIsFramed(w, n0, pc, n);
  }

  lemma PerformFrame(n: Node, rpc: Rpc, tag: string)
    requires rpc.RemoveInbound? || rpc.RemoveUser?
    requires rpc.tag == tag
    ensures OthersSame(n, Perform(n, rpc).0, tag)
  {
    var after := Perform(n, rpc).0;
    assert after.inbounds - {tag} == n.inbounds - {tag};
  }

  lemma {:induction false} PartialKeeps(w: Work, n0: Node, pc: Pc, n: Node, script: seq<Choice>)
    requires (w.Sync? ==> Proper(w)) && Fits(w, pc)
    requires At(w, n0, pc, n) && AllHonest(script)
    ensures Framed(w, n0, Partial(w, pc, n, script))
    decreases Rank(pc)
  {
    hide At, Framed;
    if pc.End? || script == [] {
      AtIsFramed(w, n0, pc, n);
    } else {
      StepKeeps(w, n0, pc, n, script[0]);
      var (pc', n') := Step(w, pc, n, script[0]);
      PartialKeeps(w, n0, pc', n', script[1..]);
    }
  }

  lemma AtStart(w: Work, n: Node, pc: Pc)
    requires pc == Start(w)
    ensures Fits(w, pc) && At(w, n, pc, n)
  {
    hide Ensured;
  }

  /** What a confirmation means for the node it was made against. */
  predicate Truthful(w: Work, n0: Node, n: Node) {
    match w
    case Drift(tag, whole, target, _, _) =>
      OthersSame(n0, n, tag) && (if whole then tag !in n.inbounds else target !in ClientsOf(n, tag))
    case Sync(_, _, _, presence, reason, _) =>
      if !presence then n == Drop(n0, w.tag)
      else if reason == PortChange then n == Registered(w, Drop(n0, w.tag))
      else if reason == Rotate then
        if w.tag in n0.inbounds then n == Rotated(w, n0) else n == Registered(w, n0)
      else n == Ensured(w, n0)
  }

  /** Whatever fails on the way, a confirmed attempt has done exactly what it says, and an unconfirmed one
      has not touched any other inbound. */
  lemma ConfirmIsTruthful(w: Work, n: Node, script: seq<Choice>)
    requires (w.Sync? ==> Proper(w)) && AllHonest(script)
    ensures var (o, n') := Finish(w, Start(w), n, script);
            OthersSame(n, n', w.tag) && (o.Confirm? ==> Truthful(w, n, n'))
  {
    hide At, Framed, Truthful, Finish;
    var pc := Start(w);
    AtStart(w, n, pc);
    FinishKeeps(w, n, pc, n, script);
    var (o, n') := Finish(w, pc, n, script);
    var end := End(o);
    FramedOthers(w, n, end, n');
    if o.Confirm? {
      ConfirmedAt(w, n, end, n');
    }
  }

  lemma ConfirmedAt(w: Work, n0: Node, end: Pc, n: Node)
    requires At(w, n0, end, n) && end.End? && end.outcome.Confirm? && OthersSame(n0, n, w.tag)
    ensures Truthful(w, n0, n)
  {
    if w.Sync? && w.presence && w.reason == Rotate && w.tag in n0.inbounds {
      hide AtCreate, AtRemove, AtPort, AtLostRotate, AtDrift, Truthful;
      ConfirmedRotation(w, n0, end, n);
    } else {
      hide AtRotate, Rotated;
      DropSame(n0, w.tag);
    }
  }

  lemma ConfirmedRotation(w: Work, n0: Node, end: Pc, n: Node)
    requires w.Sync? && w.presence && w.reason == Rotate && w.tag in n0.inbounds
    requires AtRotate(w, n0, end, n) && end.End? && end.outcome.Confirm?
    ensures Truthful(w, n0, n)
  {
    hide AtCreate;
    var clients := n.inbounds[w.tag].clients;
    var target := Bystanders(w, n0.inbounds[w.tag].clients)[w.expected := Version(w.version)];
    assert clients == target by {
      assert forall id :: id in clients <==> id in Bystanders(w, clients) || id == w.expected;
      assert forall id :: id in Bystanders(w, clients) ==> clients[id] == Bystanders(w, clients)[id];
    }
    assert n.inbounds[w.tag] == n0.inbounds[w.tag].(clients := target);
    SameElsewhere(n0, n, w.tag, n.inbounds[w.tag]);
  }

  /** With every other inbound the same, the node is the old one with this inbound put in. */
  lemma SameElsewhere(n0: Node, n: Node, tag: string, inbound: Inbound)
    requires OthersSame(n0, n, tag) && tag in n.inbounds && n.inbounds[tag] == inbound
    ensures n == Put(n0, tag, inbound)
  {
    assert forall other :: other in n.inbounds && other != tag ==> other in n.inbounds - {tag};
    assert forall other :: other in n0.inbounds && other != tag ==> other in n0.inbounds - {tag};
    assert forall other :: other in n.inbounds - {tag} ==> n.inbounds[other] == (n.inbounds - {tag})[other] == n0.inbounds[other];
    assert n.inbounds == Put(n0, tag, inbound).inbounds;
  }
}
