/** The worker's procedure for one leased record, as a machine whose every step is one fence, one local
    decryption or one remote call. `Handler` has the same procedure as straight-line code. */
module Synchronizer {
  import opened Domain
  import opened Xray

  const MAX_INTERNAL_ATTEMPTS: nat := 20

  /** What a leased record asks for: project an allocation, or remove something unknown from the namespace. */
  datatype Work =
    | Sync(tag: string, expected: string, port: int, presence: bool, reason: Reason, version: int)
    | Drift(tag: string, whole: bool, target: string, expected: string, reclaimed: bool)

  datatype Outcome =
    | Confirm(present: bool, version: int)
    | Retry(cause: Cause)
    | RetryLater(cause: Cause)
    | GiveUp(kind: ErrorKind)
    | Abandon

  datatype Effect = Fence | Unseal | Call(rpc: Rpc)

  datatype Reply = Held(held: bool) | Unsealed(ok: bool) | Answered(answer: Answer)

  datatype Pc =
    // stop listening
    | RemoveFence | RemoveCall | RemoveFence2(cause: Cause) | RemoveObserve(cause: Cause)
    // change port, then fall into creation
    | PortFence | PortRemove
    // create the dedicated inbound
    | CreateUnseal | CreateFence | CreateCall
    | UncertainFence(cause: Cause) | UncertainObserve(cause: Cause)
    | ResidueFence(kind: ErrorKind) | ResidueObserve(kind: ErrorKind) | ResidueHealthy
    | CompensatePort | CompensateResidue
    // rotate inside the inbound
    | RotateFence | RotateList
    | SafetyUnseal(present: bool) | SafetyFence(present: bool) | SafetyAdd(present: bool)
    | SafetyFence2(present: bool, cause: Cause) | SafetyObserve(present: bool, cause: Cause)
    | OldFence | OldRemove
    | NewUnseal | NewFence | NewAdd | NewFence2(cause: Cause) | NewObserve(cause: Cause)
    | CleanFence | CleanRemove
    // drift removal
    | DriftFence | DriftPeek | DriftRemove | DriftFence2(cause: Cause) | DriftObserve(cause: Cause)
    | End(outcome: Outcome)

  function Start(w: Work): (pc: Pc)
    ensures Fits(w, pc) && !pc.End?
  {
    match w
    case Drift(_, _, _, _, _) => DriftFence
    case Sync(_, _, _, presence, reason, _) =>
      if !presence then RemoveFence
      else if reason == Rotate then RotateFence
      else if reason == PortChange then PortFence
      else CreateUnseal
  }

  function Safety(w: Work): string { RotationSafetyId(w.expected) }

  function CreateRpc(w: Work): Rpc
    requires w.Sync?
  {
    CreateInbound(w.tag, w.port, w.expected, Version(w.version))
  }

  function DriftObserveRpc(w: Work): Rpc
    requires w.Drift?
  {
    if w.whole then ListInbounds else ListUsers(w.tag)
  }

  function DriftRemoveRpc(w: Work): Rpc
    requires w.Drift?
  {
    if w.whole then RemoveInbound(w.tag) else RemoveUser(w.tag, w.target, w.expected)
  }

  predicate IsDriftPc(pc: Pc) {
    pc.DriftFence? || pc.DriftPeek? || pc.DriftRemove? || pc.DriftFence2? || pc.DriftObserve?
  }

  predicate IsRotatePc(pc: Pc) {
    pc.RotateFence? || pc.RotateList? || pc.SafetyUnseal? || pc.SafetyFence? || pc.SafetyAdd? || pc.SafetyFence2? ||
    pc.SafetyObserve? || pc.OldFence? || pc.OldRemove? || pc.NewUnseal? || pc.NewFence? || pc.NewAdd? ||
    pc.NewFence2? || pc.NewObserve? || pc.CleanFence? || pc.CleanRemove?
  }

  /** Looking for the inbound of a rotation. */
  predicate IsLookPc(pc: Pc) { pc.RotateFence? || pc.RotateList? || pc.SafetyUnseal? || pc.SafetyFence? }

  /** Placing the transition client. */
  predicate IsSafetyPc(pc: Pc) { pc.SafetyAdd? || pc.SafetyFence2? || pc.SafetyObserve? }

  /** Adding the desired credential. */
  predicate IsNewPc(pc: Pc) { pc.NewUnseal? || pc.NewFence? || pc.NewAdd? || pc.NewFence2? || pc.NewObserve? }

  /** The program points a record of this kind can be at. */
  predicate Fits(w: Work, pc: Pc) {
    !pc.End? ==> (IsDriftPc(pc) <==> w.Drift?)
  }

  function Emit(w: Work, pc: Pc): Effect
    requires Fits(w, pc) && !pc.End?
  {
    if IsDriftPc(pc) then EmitDrift(w, pc)
    else if IsRotatePc(pc) then EmitRotate(w, pc)
    else EmitCreate(w, pc)
  }

  function EmitDrift(w: Work, pc: Pc): Effect
    requires Fits(w, pc) && IsDriftPc(pc)
  {
    match pc
    case DriftPeek => Call(DriftObserveRpc(w))
    case DriftObserve(_) => Call(DriftObserveRpc(w))
    case DriftRemove => Call(DriftRemoveRpc(w))
    case _ => Fence
  }

  function EmitRotate(w: Work, pc: Pc): Effect
    requires Fits(w, pc) && IsRotatePc(pc)
  {
    match pc
    case SafetyUnseal(_) => Unseal
    case NewUnseal => Unseal
    case RotateList => Call(ListUsers(w.tag))
    case SafetyObserve(_, _) => Call(ListUsers(w.tag))
    case NewObserve(_) => Call(ListUsers(w.tag))
    case SafetyAdd(_) => Call(AddUser(w.tag, Safety(w), Throwaway))
    case OldRemove => Call(RemoveUser(w.tag, w.expected, w.expected))
    case NewAdd => Call(AddUser(w.tag, w.expected, Version(w.version)))
    case CleanRemove => Call(RemoveUser(w.tag, Safety(w), w.expected))
    case _ => Fence
  }

  function EmitCreate(w: Work, pc: Pc): Effect
    requires Fits(w, pc) && !pc.End? && !IsDriftPc(pc)
  {
    match pc
    case RemoveCall | PortRemove | CompensatePort | CompensateResidue => Call(RemoveInbound(w.tag))
    case RemoveObserve(_) => Call(ListInbounds)
    case UncertainObserve(_) => Call(ListInbounds)
    case ResidueObserve(_) => Call(ListInbounds)
    case CreateUnseal => Unseal
    case CreateCall => Call(CreateRpc(w))
    case ResidueHealthy => Call(ListUsers(w.tag))
    case _ => Fence
  }

  predicate Answers(e: Effect, r: Reply) {
    match e
    case Fence => r.Held?
    case Unseal => r.Unsealed?
    case Call(rpc) =>
      r.Answered? &&
      (r.answer.Refused? ||
       (match rpc
        case ListInbounds => r.answer.Tags?
        case ListUsers(_) => r.answer.Clients?
        case _ => r.answer.Ack?))
  }

  /** A retryable failure other than "instance unavailable" may have been applied. */
  predicate IsUncertain(c: Cause) { c.retryable && c.kind != InstanceUnavailable }

  /** What a drift listing says about the target; None when the listing failed. */
  function DriftSeen(w: Work, a: Answer): Option<bool>
    requires w.Drift?
  {
    match a
    case Tags(tags) => Some(w.tag in tags)
    case Clients(ids) => Some(w.target in ids)
    case _ => None
  }

  function Next(w: Work, pc: Pc, r: Reply): Pc
    requires Fits(w, pc) && !pc.End? && Answers(Emit(w, pc), r)
  {
    if r.Held? && !r.held then End(Abandon) else
    if r.Unsealed? && !r.ok then End(GiveUp(Internal)) else
    if IsDriftPc(pc) then NextDrift(w, pc, r)
    else if IsRotatePc(pc) then NextRotate(w, pc, r)
    else NextCreate(w, pc, r)
  }

  /** Removing the inbound, changing its port, creating it. */
  function NextCreate(w: Work, pc: Pc, r: Reply): Pc
    requires Fits(w, pc) && !pc.End? && !IsDriftPc(pc) && !IsRotatePc(pc) && Answers(Emit(w, pc), r)
    requires !(r.Held? && !r.held) && !(r.Unsealed? && !r.ok)
  {
    match pc
    case RemoveFence => RemoveCall
    case RemoveCall =>
      (match r.answer
       case Refused(c) =>
         if c.kind == InboundNotFound then End(Confirm(false, 0))
         else if IsUncertain(c) then RemoveFence2(c)
         else End(Retry(c))
       case _ => End(Confirm(false, 0)))
    case RemoveFence2(c) => RemoveObserve(c)
    case RemoveObserve(c) =>
      if r.answer.Tags? && w.tag !in r.answer.tags then End(Confirm(false, 0)) else End(Retry(c))
    case PortFence => PortRemove
    case PortRemove =>
      (match r.answer
       case Refused(c) => if c.kind != InboundNotFound then End(Retry(c)) else CreateUnseal
       case _ => CreateUnseal)
    case CreateUnseal => CreateFence
    case CreateFence => CreateCall
    case CreateCall =>
      (match r.answer
       case Refused(c) =>
         if IsUncertain(c) then UncertainFence(c)
         else if c.kind == PortUnavailable || c.kind == InboundAlreadyExists then ResidueFence(c.kind)
         else End(Retry(c))
       case _ => End(Confirm(true, w.version)))
    case UncertainFence(c) => UncertainObserve(c)
    case UncertainObserve(c) =>
      if r.answer.Tags? && w.tag in r.answer.tags then End(Confirm(true, w.version)) else End(Retry(c))
    case ResidueFence(k) => ResidueObserve(k)
    case ResidueObserve(k) =>
      if r.answer.Tags? && w.tag in r.answer.tags then
        if k == PortUnavailable then CompensatePort else ResidueHealthy
      else if k == PortUnavailable then End(RetryLater(Cause(k, false)))
      else End(Retry(Cause(k, false)))
    case CompensatePort => End(RetryLater(Cause(PortUnavailable, false)))
    case ResidueHealthy =>
      if r.answer.Clients? && w.expected in r.answer.ids then End(Confirm(true, w.version)) else CompensateResidue
    case CompensateResidue => End(RetryLater(Cause(InboundAlreadyExists, false)))
  }

  function NextRotate(w: Work, pc: Pc, r: Reply): Pc
    requires Fits(w, pc) && IsRotatePc(pc) && Answers(Emit(w, pc), r)
    requires !(r.Held? && !r.held) && !(r.Unsealed? && !r.ok)
  {
    match pc
    case RotateFence => RotateList
    case RotateList =>
      (match r.answer
       case Clients(ids) =>
         var present := w.expected in ids;
         if Safety(w) !in ids then SafetyUnseal(present)
         else if present then OldFence else NewUnseal
       case Refused(c) => if c.kind == InboundNotFound then CreateUnseal else End(Retry(c))
       case _ => End(Abandon))
    case SafetyUnseal(p) => SafetyFence(p)
    case SafetyFence(p) => SafetyAdd(p)
    case SafetyAdd(p) =>
      (match r.answer
       case Refused(c) =>
         if c.kind == UserAlreadyExists then AfterSafety(p)
         else if c.kind == InboundNotFound then CreateUnseal
         else if !IsUncertain(c) then End(Retry(c))
         else SafetyFence2(p, c)
       case _ => AfterSafety(p))
    case SafetyFence2(p, c) => SafetyObserve(p, c)
    case SafetyObserve(p, c) =>
      if r.answer.Clients? && Safety(w) in r.answer.ids then AfterSafety(p) else End(Retry(c))
    case OldFence => OldRemove
    case OldRemove =>
      (match r.answer
       case Refused(c) =>
         if c.kind == InboundNotFound then CreateUnseal
         else if c.kind == UserNotFound then NewUnseal
         else End(Retry(c))
       case _ => NewUnseal)
    case NewUnseal => NewFence
    case NewFence => NewAdd
    case NewAdd =>
      (match r.answer
       case Refused(c) =>
         if c.kind == UserAlreadyExists then CleanFence
         else if c.kind == InboundNotFound then CreateUnseal
         else if IsUncertain(c) then NewFence2(c)
         else End(RetryLater(c))
       case _ => CleanFence)
    case NewFence2(c) => NewObserve(c)
    case NewObserve(c) =>
      if r.answer.Clients? && w.expected in r.answer.ids then CleanFence else End(RetryLater(c))
    case CleanFence => CleanRemove
    case CleanRemove =>
      (match r.answer
       case Refused(c) =>
         if c.kind == UserNotFound || c.kind == InboundNotFound then End(Confirm(true, w.version))
         else End(RetryLater(c))
       case _ => End(Confirm(true, w.version)))
  }

  function NextDrift(w: Work, pc: Pc, r: Reply): Pc
    requires Fits(w, pc) && IsDriftPc(pc) && Answers(Emit(w, pc), r)
    requires !(r.Held? && !r.held) && !(r.Unsealed? && !r.ok)
  {
    match pc
    case DriftFence => if w.reclaimed then DriftPeek else DriftRemove
    case DriftPeek => if DriftSeen(w, r.answer) == Some(false) then End(Confirm(false, 0)) else DriftRemove
    case DriftRemove =>
      (match r.answer
       case Refused(c) =>
         if c.kind == UserNotFound || c.kind == InboundNotFound then End(Confirm(false, 0))
         else if IsUncertain(c) then DriftFence2(c)
         else End(Retry(c))
       case _ => End(Confirm(false, 0)))
    case DriftFence2(c) => DriftObserve(c)
    case DriftObserve(c) => if DriftSeen(w, r.answer) == Some(false) then End(Confirm(false, 0)) else End(Retry(c))
  }

  /** With the transition client in place the old credential goes only if it was seen. */
  function AfterSafety(present: bool): Pc { if present then OldFence else NewUnseal }

  function Rank(pc: Pc): nat {
    match pc
    case RotateFence => 40 case RotateList => 39
    case SafetyUnseal(_) => 38 case SafetyFence(_) => 37 case SafetyAdd(_) => 36
    case SafetyFence2(_, _) => 35 case SafetyObserve(_, _) => 34
    case OldFence => 33 case OldRemove => 32
    case NewUnseal => 31 case NewFence => 30 case NewAdd => 29 case NewFence2(_) => 28 case NewObserve(_) => 27
    case CleanFence => 26 case CleanRemove => 25
    case PortFence => 22 case PortRemove => 21
    case CreateUnseal => 20 case CreateFence => 19 case CreateCall => 18
    case UncertainFence(_) => 17 case UncertainObserve(_) => 16
    case ResidueFence(_) => 15 case ResidueObserve(_) => 14 case ResidueHealthy => 13
    case CompensatePort => 12 case CompensateResidue => 11
    case DriftFence => 9 case DriftPeek => 8 case DriftRemove => 7 case DriftFence2(_) => 6 case DriftObserve(_) => 5
    case RemoveFence => 4 case RemoveCall => 3 case RemoveFence2(_) => 2 case RemoveObserve(_) => 1
    case End(_) => 0
  }

  lemma NextDescends(w: Work, pc: Pc, r: Reply)
    requires Fits(w, pc) && !pc.End? && Answers(Emit(w, pc), r)
    ensures Fits(w, Next(w, pc, r)) && Rank(Next(w, pc, r)) < Rank(pc)
  {
    if IsDriftPc(pc) {
      DriftDescends(w, pc, r);
    } else if IsRotatePc(pc) {
      RotateDescends(w, pc, r);
    } else {
      CreateDescends(w, pc, r);
    }
  }

  lemma DriftDescends(w: Work, pc: Pc, r: Reply)
    requires Fits(w, pc) && IsDriftPc(pc) && Answers(Emit(w, pc), r)
    ensures Fits(w, Next(w, pc, r)) && Rank(Next(w, pc, r)) < Rank(pc)
  {
    hide EmitRotate, EmitCreate, NextRotate, NextCreate;
  }

  lemma RotateDescends(w: Work, pc: Pc, r: Reply)
    requires Fits(w, pc) && IsRotatePc(pc) && Answers(Emit(w, pc), r)
    ensures Fits(w, Next(w, pc, r)) && Rank(Next(w, pc, r)) < Rank(pc)
  {
    hide Emit, Next, Rank;
    if IsLookPc(pc) {
      LookDescends(w, pc, r);
    } else if IsSafetyPc(pc) {
      SafetyDescends(w, pc, r);
    } else if IsNewPc(pc) {
      NewDescends(w, pc, r);
    } else {
      RenewalDescends(w, pc, r);
    }
  }

  lemma LookDescends(w: Work, pc: Pc, r: Reply)
    requires Fits(w, pc) && IsLookPc(pc) && Answers(Emit(w, pc), r)
    ensures Fits(w, Next(w, pc, r)) && Rank(Next(w, pc, r)) < Rank(pc)
  {
    hide EmitDrift, EmitCreate, NextDrift, NextCreate;
  }

  lemma SafetyDescends(w: Work, pc: Pc, r: Reply)
    requires Fits(w, pc) && IsSafetyPc(pc) && Answers(Emit(w, pc), r)
    ensures Fits(w, Next(w, pc, r)) && Rank(Next(w, pc, r)) < Rank(pc)
  {
    hide EmitDrift, EmitCreate, NextDrift, NextCreate;
  }

  lemma NewDescends(w: Work, pc: Pc, r: Reply)
    requires Fits(w, pc) && IsNewPc(pc) && Answers(Emit(w, pc), r)
    ensures Fits(w, Next(w, pc, r)) && Rank(Next(w, pc, r)) < Rank(pc)
  {
    hide EmitDrift, EmitCreate, NextDrift, NextCreate;
  }

  lemma RenewalDescends(w: Work, pc: Pc, r: Reply)
    requires Fits(w, pc) && IsRotatePc(pc) && !IsLookPc(pc) && !IsSafetyPc(pc) && !IsNewPc(pc) && Answers(Emit(w, pc), r)
    ensures Fits(w, Next(w, pc, r)) && Rank(Next(w, pc, r)) < Rank(pc)
  {
    hide EmitDrift, EmitCreate, NextDrift, NextCreate;
  }

  lemma CreateDescends(w: Work, pc: Pc, r: Reply)
    requires Fits(w, pc) && !pc.End? && !IsDriftPc(pc) && !IsRotatePc(pc) && Answers(Emit(w, pc), r)
    ensures Fits(w, Next(w, pc, r)) && Rank(Next(w, pc, r)) < Rank(pc)
  {
    hide EmitDrift, EmitRotate, NextDrift, NextRotate;
  }

  // ---- a run against the node ----

  /** How the environment treats one step: the fate of a call, whether a fence holds, whether a key decrypts. */
  datatype Choice = Choice(fault: Fault, held: bool, ok: bool)

  const CALM := Choice(Clean, true, true)

  predicate Honest(c: Choice) { HonestFault(c.fault) }

  function Respond(n: Node, e: Effect, c: Choice): (r: (Node, Reply))
    ensures Answers(e, r.1)
  {
    match e
    case Fence => (n, Held(c.held))
    case Unseal => (n, Unsealed(c.ok))
    case Call(rpc) => var (n', a) := Serve(n, rpc, c.fault); (n', Answered(a))
  }

  function Step(w: Work, pc: Pc, n: Node, c: Choice): (r: (Pc, Node))
    requires Fits(w, pc) && !pc.End?
    ensures Fits(w, r.0) && Rank(r.0) < Rank(pc)
  {
    var (n', reply) := Respond(n, Emit(w, pc), c);
    NextDescends(w, pc, reply);
    (Next(w, pc, reply), n')
  }

  function Head(script: seq<Choice>): Choice { if script == [] then CALM else script[0] }

  function Tail(script: seq<Choice>): seq<Choice> { if script == [] then [] else script[1..] }

  /** Runs a record to its end; once the script is used up nothing fails any more. */
  function Finish(w: Work, pc: Pc, n: Node, script: seq<Choice>): (Outcome, Node)
    requires Fits(w, pc)
    decreases Rank(pc)
  {
    if pc.End? then (pc.outcome, n)
    else
      var (pc', n') := Step(w, pc, n, Head(script));
      Finish(w, pc', n', Tail(script))
  }

  /** A record that has ended has nothing left to do. */
  lemma Endings(w: Work)
    ensures forall o, n, script :: Finish(w, End(o), n, script) == (o, n)
  {
  }

  lemma Advance(w: Work, pc: Pc, n: Node, script: seq<Choice>)
    requires Fits(w, pc) && !pc.End?
    ensures var (pc', n') := Step(w, pc, n, Head(script));
            Finish(w, pc, n, script) == Finish(w, pc', n', Tail(script))
  {
  }

  /** Runs a record for as many steps as the script has, then the worker is gone. */
  function Partial(w: Work, pc: Pc, n: Node, script: seq<Choice>): Node
    requires Fits(w, pc)
    decreases Rank(pc)
  {
    if pc.End? || script == [] then n
    else
      var (pc', n') := Step(w, pc, n, script[0]);
      Partial(w, pc', n', script[1..])
  }

  /** What the queue does with an outcome that is neither a confirmation nor an abandonment. */
  predicate IsPermanent(o: Outcome, attempts: nat) {
    o.GiveUp? ||
    (o.Retry? && (!o.cause.retryable || (o.cause.kind == Internal && attempts + 1 >= MAX_INTERNAL_ATTEMPTS)))
  }

  // ---- what a procedure can end with ----

  predicate IsRemovePc(pc: Pc) { pc.RemoveFence? || pc.RemoveCall? || pc.RemoveFence2? || pc.RemoveObserve? }

  /** Removal and projection never mix. */
  predicate Suits(w: Work, pc: Pc) {
    match pc
    case End(o) => o.Confirm? ==> o == Confirm(w.Sync? && w.presence, if w.Sync? && w.presence then w.version else 0)
    case _ => w.Sync? ==> (IsRemovePc(pc) <==> !w.presence)
  }

  lemma NextSuits(w: Work, pc: Pc, r: Reply)
    requires Fits(w, pc) && !pc.End? && Answers(Emit(w, pc), r) && Suits(w, pc)
    ensures Suits(w, Next(w, pc, r))
  {
    if IsDriftPc(pc) {
      hide EmitRotate, EmitCreate, NextRotate, NextCreate;
    } else if IsRotatePc(pc) {
      RotateSuits(w, pc, r);
    } else {
      CreateSuits(w, pc, r);
    }
  }

  lemma RotateSuits(w: Work, pc: Pc, r: Reply)
    requires Fits(w, pc) && IsRotatePc(pc) && Answers(Emit(w, pc), r) && Suits(w, pc)
    ensures Suits(w, Next(w, pc, r))
  {
    hide Emit, Next, Suits;
    if IsLookPc(pc) || IsSafetyPc(pc) {
      PlacingSuits(w, pc, r);
    } else {
      RenewalSuits(w, pc, r);
    }
  }

  lemma PlacingSuits(w: Work, pc: Pc, r: Reply)
    requires Fits(w, pc) && (IsLookPc(pc) || IsSafetyPc(pc)) && Answers(Emit(w, pc), r) && Suits(w, pc)
    ensures Suits(w, Next(w, pc, r))
  {
    hide EmitDrift, EmitCreate, NextDrift, NextCreate;
  }

  lemma RenewalSuits(w: Work, pc: Pc, r: Reply)
    requires Fits(w, pc) && IsRotatePc(pc) && !IsLookPc(pc) && !IsSafetyPc(pc) && Answers(Emit(w, pc), r) && Suits(w, pc)
    ensures Suits(w, Next(w, pc, r))
  {
    hide EmitDrift, EmitCreate, NextDrift, NextCreate;
  }

  lemma CreateSuits(w: Work, pc: Pc, r: Reply)
    requires Fits(w, pc) && !pc.End? && !IsDriftPc(pc) && !IsRotatePc(pc) && Answers(Emit(w, pc), r) && Suits(w, pc)
    ensures Suits(w, Next(w, pc, r))
  {
    hide EmitDrift, EmitRotate, NextDrift, NextRotate;
  }

  lemma StepSuits(w: Work, pc: Pc, n: Node, c: Choice)
    requires Fits(w, pc) && !pc.End? && Suits(w, pc)
    ensures Suits(w, Step(w, pc, n, c).0)
  {
    hide Emit, Next, Suits;
    var (n', reply) := Respond(n, Emit(w, pc), c);
    NextSuits(w, pc, reply);
  }

  lemma {:induction false} FinishSuits(w: Work, pc: Pc, n: Node, script: seq<Choice>)
    requires Fits(w, pc) && Suits(w, pc)
    ensures Suits(w, End(Finish(w, pc, n, script).0))
    decreases Rank(pc)
  {
    hide Step, Suits;
    if !pc.End? {
      StepSuits(w, pc, n, Head(script));
      var (pc', n') := Step(w, pc, n, Head(script));
      FinishSuits(w, pc', n', Tail(script));
    }
  }

  /** A confirmation confirms what was asked: the presence of the intent and, if present, the version loaded. */
  lemma ConfirmsAsAsked(w: Work, n: Node, script: seq<Choice>)
    ensures var o := Finish(w, Start(w), n, script).0;
            o.Confirm? ==> o == Confirm(w.Sync? && w.presence, if w.Sync? && w.presence then w.version else 0)
  {
    hide Finish;
    var pc := Start(w);
    assert Suits(w, pc);
    FinishSuits(w, pc, n, script);
  }
}
