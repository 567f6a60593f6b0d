/** How an attempt can end in a failure that may be final, read off the node and the fate of each call alone. What is
    not on these lists is put off, abandoned or confirmed. */
module Outcomes {
  import opened Domain
  import opened Xray
  import opened Synchronizer
  import opened Projection
  import opened Convergence

  predicate Fails(c: Choice, cause: Cause) { c.fault.Broken? && c.fault.cause == cause }

  // ---- stopping to listen ----

  /** The removal failed, and either that is certain or the inbound was not seen to be gone. */
  predicate RemovalRefused(w: Work, n: Node, script: seq<Choice>, c: Cause) {
    && Nth(script, 0).held && Fails(Nth(script, 1), c)
    && (c.retryable && c.kind != InstanceUnavailable ==>
          Nth(script, 2).held && (Nth(script, 3).fault.Broken? || (w.tag in n.inbounds && !Nth(script, 1).fault.applied)))
  }

  lemma RemovalRetriesExactlyWhen(w: Work, n: Node, script: seq<Choice>, c: Cause)
    requires w.Sync? && !w.presence && Proper(w) && AllHonest(script)
    ensures Finish(w, Start(w), n, script).0 == Retry(c) <==> RemovalRefused(w, n, script, c)
  {
    hide Finish, Step;
    TailNth(script);
    Advance(w, RemoveFence, n, script);
    RemovalFenceStep(w, n, Head(script));
    Endings(w);
    if Nth(script, 0).held { RemovalCalled(w, n, Tail(script), c); }
  }

  lemma RemovalFenceStep(w: Work, n: Node, c: Choice)
    requires w.Sync?
    ensures Step(w, RemoveFence, n, c) == (if c.held then RemoveCall else End(Abandon), n)
  {
    hide EmitDrift, EmitRotate, NextDrift, NextRotate;
  }

  lemma RemovalCalled(w: Work, n: Node, script: seq<Choice>, c: Cause)
    requires w.Sync? && !w.presence && Proper(w) && AllHonest(script)
    ensures Finish(w, RemoveCall, n, script).0 == Retry(c) <==>
            && Fails(Nth(script, 0), c)
            && (c.retryable && c.kind != InstanceUnavailable ==>
                  Nth(script, 1).held && (Nth(script, 2).fault.Broken? || (w.tag in n.inbounds && !Nth(script, 0).fault.applied)))
  {
    hide Finish, Step;
    TailNth(script);
    TailNth(Tail(script));
    Endings(w);
    Advance(w, RemoveCall, n, script);
    RemovalCallStep(w, n, Head(script));
    var fault := Head(script).fault;
    if fault.Broken? && IsUncertain(fault.cause) {
      var n' := Step(w, RemoveCall, n, Head(script)).1;
      Advance(w, RemoveFence2(fault.cause), n', Tail(script));
      Advance(w, RemoveObserve(fault.cause), n', Tail(Tail(script)));
      RemovalLook(w, fault.cause, n', Head(Tail(script)), Head(Tail(Tail(script))));
    }
  }

  lemma RemovalCallStep(w: Work, n: Node, c: Choice)
    requires w.Sync? && Proper(w) && Honest(c)
    ensures var (pc', n') := Step(w, RemoveCall, n, c);
            if c.fault.Clean? then pc' == End(Confirm(false, 0))
            else
              && pc' == (if IsUncertain(c.fault.cause) then RemoveFence2(c.fault.cause) else End(Retry(c.fault.cause)))
              && (w.tag in n'.inbounds <==> w.tag in n.inbounds && !c.fault.applied)
  {
    hide EmitDrift, EmitRotate, NextDrift, NextRotate;
  }

  lemma RemovalLook(w: Work, cause: Cause, n: Node, c: Choice, d: Choice)
    requires w.Sync? && Honest(d)
    ensures Step(w, RemoveFence2(cause), n, c) == (if c.held then RemoveObserve(cause) else End(Abandon), n)
    ensures Step(w, RemoveObserve(cause), n, d) ==
            (if d.fault.Clean? && w.tag !in n.inbounds then End(Confirm(false, 0)) else End(Retry(cause)), n)
  {
    hide EmitDrift, EmitRotate, NextDrift, NextRotate;
  }

  // ---- creating ----

  /** The creation failed, and either that is certain or the tag was not seen afterwards; or it was answered "already
      exists", and the listing was lost. */
  predicate CreationRefused(w: Work, n: Node, script: seq<Choice>, i: nat, c: Cause)
    requires w.Sync?
  {
    var call := Nth(script, i + 2).fault;
    && Nth(script, i).ok && Nth(script, i + 1).held
    && if call.Clean? then
         && c == Cause(InboundAlreadyExists, false) && w.tag in n.inbounds && !Blocked(w, n)
         && Nth(script, i + 3).held && Nth(script, i + 4).fault.Broken?
       else
         && c == call.cause
         && (c.retryable && c.kind != InstanceUnavailable ==>
               && Nth(script, i + 3).held
               && (Nth(script, i + 4).fault.Broken? || !(w.tag in n.inbounds || (call.applied && !Blocked(w, n)))))
  }

  lemma CreationRetriesExactlyWhen(w: Work, n: Node, script: seq<Choice>, c: Cause)
    requires w.Sync? && Proper(w) && AllHonest(script)
    ensures Finish(w, CreateUnseal, n, script).0 == Retry(c) <==> CreationRefused(w, n, script, 0, c)
  {
    hide Finish, Step, Blocked;
    TailNth(script);
    TailNth(Tail(script));
    Endings(w);
    Advance(w, CreateUnseal, n, script);
    UnsealStep(w, n, Head(script), Head(Tail(script)));
    if Nth(script, 0).ok {
      Advance(w, CreateFence, n, Tail(script));
      if Nth(script, 1).held { CreationCalled(w, n, Tail(Tail(script)), c); }
    }
  }

  lemma UnsealStep(w: Work, n: Node, c: Choice, d: Choice)
    requires w.Sync?
    ensures Step(w, CreateUnseal, n, c) == (if c.ok then CreateFence else End(GiveUp(Internal)), n)
    ensures Step(w, CreateFence, n, d) == (if d.held then CreateCall else End(Abandon), n)
  {
    hide EmitDrift, EmitRotate, NextDrift, NextRotate;
  }

  lemma CreationCalled(w: Work, n: Node, script: seq<Choice>, c: Cause)
    requires w.Sync? && Proper(w) && AllHonest(script)
    ensures Finish(w, CreateCall, n, script).0 == Retry(c) <==>
            var call := Nth(script, 0).fault;
            if call.Clean? then
              && c == Cause(InboundAlreadyExists, false) && w.tag in n.inbounds && !Blocked(w, n)
              && Nth(script, 1).held && Nth(script, 2).fault.Broken?
            else
              && c == call.cause
              && (c.retryable && c.kind != InstanceUnavailable ==>
                    && Nth(script, 1).held
                    && (Nth(script, 2).fault.Broken? || !(w.tag in n.inbounds || (call.applied && !Blocked(w, n)))))
  {
    hide Finish, Step, Blocked;
    TailNth(script);
    TailNth(Tail(script));
    Endings(w);
    Advance(w, CreateCall, n, script);
    CreationCallStep(w, n, Head(script));
    var (pc', n') := Step(w, CreateCall, n, Head(script));
    if pc'.UncertainFence? {
      Advance(w, pc', n', Tail(script));
      Advance(w, UncertainObserve(pc'.cause), n', Tail(Tail(script)));
      CreationLook(w, pc'.cause, n', Head(Tail(script)), Head(Tail(Tail(script))));
    } else if pc'.ResidueFence? {
      ResidueRetries(w, pc'.kind, n', Tail(script), c);
    }
  }

  lemma CreationCallStep(w: Work, n: Node, c: Choice)
    requires w.Sync? && Proper(w) && Honest(c)
    ensures var (pc', n') := Step(w, CreateCall, n, c);
            match c.fault
            case Clean =>
              if Blocked(w, n) then pc' == ResidueFence(PortUnavailable)
              else if w.tag in n.inbounds then pc' == ResidueFence(InboundAlreadyExists) && n' == n
              else pc' in {ResidueFence(PortUnavailable), End(Confirm(true, w.version))}
            case Broken(cause, applied) =>
              && pc' == (if IsUncertain(cause) then UncertainFence(cause) else End(Retry(cause)))
              && (w.tag in n'.inbounds <==> w.tag in n.inbounds || (applied && !Blocked(w, n)))
  {
    hide EmitDrift, EmitRotate, NextDrift, NextRotate, Bound;
  }

  lemma CreationLook(w: Work, cause: Cause, n: Node, c: Choice, d: Choice)
    requires w.Sync? && Honest(d)
    ensures Step(w, UncertainFence(cause), n, c) == (if c.held then UncertainObserve(cause) else End(Abandon), n)
    ensures Step(w, UncertainObserve(cause), n, d) ==
            (if d.fault.Clean? && w.tag in n.inbounds then End(Confirm(true, w.version)) else End(Retry(cause)), n)
  {
    hide EmitDrift, EmitRotate, NextDrift, NextRotate;
  }

  /** After "port unavailable" the work is only ever put off. */
  lemma ResidueRetries(w: Work, kind: ErrorKind, n: Node, script: seq<Choice>, c: Cause)
    requires w.Sync? && Proper(w) && kind in {InboundAlreadyExists, PortUnavailable} && AllHonest(script)
    requires kind == InboundAlreadyExists ==> w.tag in n.inbounds
    ensures Finish(w, ResidueFence(kind), n, script).0 == Retry(c) <==>
            && kind == InboundAlreadyExists && c == Cause(kind, false)
            && Nth(script, 0).held && Nth(script, 1).fault.Broken?
  {
    hide Finish, Step;
    Endings(w);
    TailNth(script);
    ResidueFenceStep(w, kind, n, Head(script));
    Advance(w, ResidueFence(kind), n, script);
    var rest := Tail(script);
    ResidueObserveStep(w, kind, n, Head(rest));
    Advance(w, ResidueObserve(kind), n, rest);
    CompensateStep(w, n, Head(Tail(rest)));
    Advance(w, CompensatePort, n, Tail(rest));
    HealthNeverRetries(w, n, Tail(rest));
  }

  lemma HealthNeverRetries(w: Work, n: Node, script: seq<Choice>)
    requires w.Sync? && IsPanelNamespace(w.tag)
    ensures !Finish(w, ResidueHealthy, n, script).0.Retry?
  {
    hide Finish, Step;
    Endings(w);
    ResidueHealthyStep(w, n, Head(script));
    Advance(w, ResidueHealthy, n, script);
    CompensateStep(w, n, Head(Tail(script)));
    Advance(w, CompensateResidue, n, Tail(script));
  }

  // ---- changing the port ----

  lemma PortChangeRetriesExactlyWhen(w: Work, n: Node, script: seq<Choice>, c: Cause)
    requires w.Sync? && w.presence && w.reason == PortChange && Proper(w) && AllHonest(script)
    ensures Finish(w, Start(w), n, script).0 == Retry(c) <==>
            && Nth(script, 0).held
            && (Fails(Nth(script, 1), c) || (Nth(script, 1).fault.Clean? && CreationRefused(w, Drop(n, w.tag), script, 2, c)))
  {
    hide Finish, Step, Blocked, Drop;
    TailNth(script);
    TailNth(Tail(script));
    Endings(w);
    Advance(w, PortFence, n, script);
    PortSteps(w, n, Head(script), Head(Tail(script)));
    if Nth(script, 0).held {
      Advance(w, PortRemove, n, Tail(script));
      if Nth(script, 1).fault.Clean? {
        CreationRetriesExactlyWhen(w, Drop(n, w.tag), Tail(Tail(script)), c);
      }
    }
  }

  lemma PortSteps(w: Work, n: Node, c: Choice, d: Choice)
    requires w.Sync? && Proper(w) && Honest(d)
    ensures Step(w, PortFence, n, c) == (if c.held then PortRemove else End(Abandon), n)
    ensures d.fault.Clean? ==> Step(w, PortRemove, n, d) == (CreateUnseal, Drop(n, w.tag))
    ensures d.fault.Broken? ==> Step(w, PortRemove, n, d).0 == End(Retry(d.fault.cause))
  {
    hide EmitDrift, EmitRotate, NextDrift, NextRotate;
    DropSame(n, w.tag);
  }

  // ---- rotating ----

  /** The node would not list the inbound. */
  predicate ListingRefused(script: seq<Choice>, c: Cause) {
    Nth(script, 0).held && Fails(Nth(script, 1), c)
  }

  predicate Listed(script: seq<Choice>) { Nth(script, 0).held && Nth(script, 1).fault.Clean? }

  /** From choice i on: the transition client was refused, and either that is certain or it was not seen. */
  predicate TransitionFails(script: seq<Choice>, i: nat, c: Cause) {
    && Nth(script, i).ok && Nth(script, i + 1).held && Fails(Nth(script, i + 2), c)
    && (c.retryable && c.kind != InstanceUnavailable ==>
          Nth(script, i + 3).held && (Nth(script, i + 4).fault.Broken? || !Nth(script, i + 2).fault.applied))
  }

  predicate TransitionRefused(w: Work, n: Node, script: seq<Choice>, c: Cause) {
    Listed(script) && Safety(w) !in ClientsOf(n, w.tag) && TransitionFails(script, 2, c)
  }

  /** From choice i on: how many choices go by until the transition client is known to stand by. */
  function Placing(script: seq<Choice>, i: nat): Option<nat> {
    if !Nth(script, i).ok || !Nth(script, i + 1).held then None
    else match Nth(script, i + 2).fault
      case Clean => Some(i + 3)
      case Broken(c, applied) =>
        if c.retryable && c.kind != InstanceUnavailable && applied && Nth(script, i + 3).held && Nth(script, i + 4).fault.Clean?
        then Some(i + 5) else None
  }

  /** Where in the script the rest of a rotation begins, once a transition client stands by. */
  function Placed(w: Work, n: Node, script: seq<Choice>): Option<nat> {
    if !Listed(script) then None
    else if Safety(w) in ClientsOf(n, w.tag) then Some(2)
    else Placing(script, 2)
  }

  /** The removal of the old credential was refused. */
  predicate OldRefused(w: Work, n: Node, script: seq<Choice>, c: Cause) {
    var at := Placed(w, n, script);
    at.Some? && w.expected in ClientsOf(n, w.tag) && Nth(script, at.value).held && Fails(Nth(script, at.value + 1), c)
  }

  /** Refused, and carried out all the same. */
  predicate OldRefusedButGone(w: Work, n: Node, script: seq<Choice>, c: Cause) {
    OldRefused(w, n, script, c) && Nth(script, Placed(w, n, script).value + 1).fault.applied
  }

  /** What such an ending leaves of the inbound: the clients it found, but for a transition client, and but for the old
      credential if its removal was refused and carried out all the same. */
  predicate Leaves(w: Work, n: Node, n': Node, gone: bool) {
    && w.tag in n.inbounds && w.tag in n'.inbounds
    && n'.inbounds[w.tag].clients - {Safety(w)} ==
       n.inbounds[w.tag].clients - (if gone then {Safety(w), w.expected} else {Safety(w)})
  }

  lemma NothingLeft(w: Work, n: Node)
    ensures w.tag in n.inbounds ==> Leaves(w, n, n, false)
  {
  }

  lemma LeavesOn(w: Work, n: Node, m: Node, n': Node, gone: bool)
    requires Leaves(w, n, m, false) && Leaves(w, m, n', gone)
    ensures Leaves(w, n, n', gone)
  {
    var a, b := n.inbounds[w.tag].clients, m.inbounds[w.tag].clients;
    if gone {
      assert a - {Safety(w), w.expected} == (a - {Safety(w)}) - {w.expected};
      assert b - {Safety(w), w.expected} == (b - {Safety(w)}) - {w.expected};
    }
  }

  /** A rotation ends in a failure that may be final exactly when the listing, the transition client or the removal of
      the old credential is refused. Whatever is refused after that, it is put off. */
  lemma RotationRetriesExactlyWhen(w: Work, n: Node, script: seq<Choice>, c: Cause)
    requires IsRotation(w) && w.tag in n.inbounds && AllHonest(script)
    ensures Finish(w, Start(w), n, script).0 == Retry(c) <==>
            ListingRefused(script, c) || TransitionRefused(w, n, script, c) || OldRefused(w, n, script, c)
    ensures Finish(w, Start(w), n, script).0 == Retry(c) ==>
              Leaves(w, n, Finish(w, Start(w), n, script).1, OldRefusedButGone(w, n, script, c))
  {
    hide Finish, Step, AtRotate, Leaves;
    NothingLeft(w, n);
    TailNth(script);
    TailNth(Tail(script));
    Endings(w);
    StartsRotating(w, n);
    Advance(w, RotateFence, n, script);
    LookSteps(w, n, Head(script), Head(Tail(script)));
    if Nth(script, 0).held {
      Advance(w, RotateList, n, Tail(script));
      if Nth(script, 1).fault.Clean? {
        var rest, clients := Tail(Tail(script)), n.inbounds[w.tag].clients;
        if Safety(w) !in clients {
          PlacingRetries(w, n, rest, w.expected in clients, c);
          PlacingShifts(script, 2, rest, c);
        } else {
          PlacedRetries(w, n, n, rest, w.expected in clients, c);
        }
      }
    }
  }

  lemma StartsRotating(w: Work, n: Node)
    requires IsRotation(w) && w.tag in n.inbounds
    ensures Start(w) == RotateFence && Rotating(w, n, n)
  {
  }

  /** The same choices, counted from a later one. */
  lemma PlacingShifts(script: seq<Choice>, i: nat, rest: seq<Choice>, c: Cause)
    requires forall j: nat :: Nth(rest, j) == Nth(script, i + j)
    ensures TransitionFails(rest, 0, c) == TransitionFails(script, i, c)
    ensures Placing(script, i) == if Placing(rest, 0).Some? then Some(i + Placing(rest, 0).value) else None
  {
    hide Nth;
    assert Nth(rest, 0) == Nth(script, i + 0) && Nth(rest, 1) == Nth(script, i + 1) && Nth(rest, 2) == Nth(script, i + 2);
    assert Nth(rest, 3) == Nth(script, i + 3) && Nth(rest, 4) == Nth(script, i + 4);
  }

  lemma LookSteps(w: Work, n: Node, c: Choice, d: Choice)
    requires IsRotation(w) && w.tag in n.inbounds && Honest(d)
    ensures Step(w, RotateFence, n, c) == (if c.held then RotateList else End(Abandon), n)
    ensures var clients := n.inbounds[w.tag].clients;
            var present := w.expected in clients;
            Step(w, RotateList, n, d) ==
            (if d.fault.Broken? then End(Retry(d.fault.cause))
             else if Safety(w) !in clients then SafetyUnseal(present)
             else AfterSafety(present), n)
  {
    hide EmitDrift, EmitCreate, NextDrift, NextCreate;
  }

  /** Placing the transition client, and on. */
  lemma PlacingRetries(w: Work, n: Node, script: seq<Choice>, present: bool, c: Cause)
    requires IsRotation(w) && w.tag in n.inbounds && AllHonest(script)
    requires Safety(w) !in n.inbounds[w.tag].clients && present == (w.expected in n.inbounds[w.tag].clients)
    ensures Finish(w, SafetyUnseal(present), n, script).0 == Retry(c) <==>
            TransitionFails(script, 0, c) ||
            (Placing(script, 0).Some? && present && var at := Placing(script, 0).value;
                                                    Nth(script, at).held && Fails(Nth(script, at + 1), c))
    ensures Finish(w, SafetyUnseal(present), n, script).0 == Retry(c) ==>
              Leaves(w, n, Finish(w, SafetyUnseal(present), n, script).1,
                   Placing(script, 0).Some? && var call := Nth(script, Placing(script, 0).value + 1).fault; call.Broken? && call.applied)
  {
    hide Finish, Step, AtRotate, Leaves;
    TailNth(script);
    TailNth(Tail(script));
    Endings(w);
    Advance(w, SafetyUnseal(present), n, script);
    SafetyOpens(w, n, present, Head(script), Head(Tail(script)));
    if Nth(script, 0).ok {
      Advance(w, SafetyFence(present), n, Tail(script));
      if Nth(script, 1).held {
        AddingRetries(w, n, Tail(Tail(script)), present, c);
      }
    }
  }

  lemma SafetyOpens(w: Work, n: Node, present: bool, c: Choice, d: Choice)
    requires w.Sync?
    ensures Step(w, SafetyUnseal(present), n, c) == (if c.ok then SafetyFence(present) else End(GiveUp(Internal)), n)
    ensures Step(w, SafetyFence(present), n, d) == (if d.held then SafetyAdd(present) else End(Abandon), n)
  {
    hide EmitDrift, EmitCreate, NextDrift, NextCreate;
  }

  lemma AddingRetries(w: Work, n: Node, script: seq<Choice>, present: bool, c: Cause)
    requires IsRotation(w) && w.tag in n.inbounds && AllHonest(script)
    requires Safety(w) !in n.inbounds[w.tag].clients && present == (w.expected in n.inbounds[w.tag].clients)
    ensures var call := Nth(script, 0).fault;
            Finish(w, SafetyAdd(present), n, script).0 == Retry(c) <==>
            if call.Clean? then present && Nth(script, 1).held && Fails(Nth(script, 2), c)
            else if !(call.cause.retryable && call.cause.kind != InstanceUnavailable) then c == call.cause
            else
              && Nth(script, 1).held
              && if Nth(script, 2).fault.Clean? && call.applied then present && Nth(script, 3).held && Fails(Nth(script, 4), c)
                 else c == call.cause
    ensures var call := Nth(script, 0).fault;
            var placed := call.Clean? || (call.cause.retryable && call.cause.kind != InstanceUnavailable &&
                                          Nth(script, 1).held && Nth(script, 2).fault.Clean? && call.applied);
            var removal := Nth(script, if call.Clean? then 2 else 4).fault;
            Finish(w, SafetyAdd(present), n, script).0 == Retry(c) ==>
              Leaves(w, n, Finish(w, SafetyAdd(present), n, script).1, placed && removal.Broken? && removal.applied)
  {
    hide Finish, Step, AtRotate, Rotating;
    TailNth(script);
    TailNth(Tail(script));
    Endings(w);
    Advance(w, SafetyAdd(present), n, script);
    SafetyAddStep(w, n, present, Head(script));
    var (pc', n') := Step(w, SafetyAdd(present), n, Head(script));
    var call := Nth(script, 0).fault;
    if call.Clean? {
      PlacedRetries(w, n, n', Tail(script), present, c);
      if Finish(w, AfterSafety(present), n', Tail(script)).0 == Retry(c) {
        LeavesOn(w, n, n', Finish(w, AfterSafety(present), n', Tail(script)).1, Nth(Tail(script), 1).fault.applied);
      }
    } else if IsUncertain(call.cause) {
      Advance(w, SafetyFence2(present, call.cause), n', Tail(script));
      Advance(w, SafetyObserve(present, call.cause), n', Tail(Tail(script)));
      SafetyLook(w, n', present, call.cause, Head(Tail(script)), Head(Tail(Tail(script))));
      if Nth(script, 1).held && Nth(script, 2).fault.Clean? && call.applied {
        var rest := Tail(Tail(Tail(script)));
        PlacedRetries(w, n, n', rest, present, c);
        if Finish(w, AfterSafety(present), n', rest).0 == Retry(c) {
          LeavesOn(w, n, n', Finish(w, AfterSafety(present), n', rest).1, Nth(rest, 1).fault.applied);
        }
      }
    }
  }

  lemma SafetyAddStep(w: Work, n: Node, present: bool, c: Choice)
    requires IsRotation(w) && w.tag in n.inbounds && Honest(c) && Safety(w) !in n.inbounds[w.tag].clients
    ensures var (pc', n') := Step(w, SafetyAdd(present), n, c);
            && Rotating(w, n, n') && Leaves(w, n, n', false) && w.tag in n'.inbounds && n'.inbounds[w.tag].clients - {Safety(w)} == n.inbounds[w.tag].clients
            && (Safety(w) in n'.inbounds[w.tag].clients <==> c.fault.Clean? || c.fault.applied)
            && pc' == (if c.fault.Clean? then AfterSafety(present)
                       else if IsUncertain(c.fault.cause) then SafetyFence2(present, c.fault.cause)
                       else End(Retry(c.fault.cause)))
  {
    hide EmitDrift, EmitCreate, NextDrift, NextCreate, Rotating, Serve;
    SelfRotating(w, n);
    RotationReply(w, n, n, AddUser(w.tag, Safety(w), Throwaway), c.fault);
    AddingServes(n, w.tag, Safety(w), c.fault);
  }

  lemma SelfRotating(w: Work, n: Node)
    requires w.tag in n.inbounds
    ensures Rotating(w, n, n)
  {
  }

  lemma AddingServes(n: Node, tag: string, id: string, fault: Fault)
    requires IsPanelNamespace(tag) && tag in n.inbounds && id !in n.inbounds[tag].clients
    ensures var (n', a) := Serve(n, AddUser(tag, id, Throwaway), fault);
            && tag in n'.inbounds && n'.inbounds[tag].clients - {id} == n.inbounds[tag].clients
            && (id in n'.inbounds[tag].clients <==> fault.Clean? || fault.applied)
            && a == (if fault.Clean? then Ack else Refused(fault.cause))
  {
  }

  lemma SafetyLook(w: Work, n: Node, present: bool, cause: Cause, c: Choice, d: Choice)
    requires w.Sync? && w.tag in n.inbounds && Honest(d)
    ensures Step(w, SafetyFence2(present, cause), n, c) == (if c.held then SafetyObserve(present, cause) else End(Abandon), n)
    ensures Step(w, SafetyObserve(present, cause), n, d) ==
            (if d.fault.Clean? && Safety(w) in n.inbounds[w.tag].clients then AfterSafety(present) else End(Retry(cause)), n)
  {
    hide EmitDrift, EmitCreate, NextDrift, NextCreate;
  }

  /** With the transition client in place only the removal of the old credential can still be final. */
  lemma PlacedRetries(w: Work, n0: Node, n: Node, script: seq<Choice>, present: bool, c: Cause)
    requires IsRotation(w) && w.tag in n0.inbounds && Rotating(w, n0, n) && AllHonest(script)
    requires Safety(w) in n.inbounds[w.tag].clients && present == (w.expected in n.inbounds[w.tag].clients)
    ensures Finish(w, AfterSafety(present), n, script).0 == Retry(c) <==> present && Nth(script, 0).held && Fails(Nth(script, 1), c)
    ensures Finish(w, AfterSafety(present), n, script).0 == Retry(c) ==>
              Leaves(w, n, Finish(w, AfterSafety(present), n, script).1, Nth(script, 1).fault.applied)
  {
    hide Finish, Step, Rotating;
    if present {
      TailNth(script);
      TailNth(Tail(script));
      Endings(w);
      Advance(w, OldFence, n, script);
      OldSteps(w, n0, n, Head(script), Head(Tail(script)));
      if Nth(script, 0).held {
        Advance(w, OldRemove, n, Tail(script));
        if Nth(script, 1).fault.Clean? {
          RotateKeeps(w, n0, OldRemove, n, Head(Tail(script)));
          RenewingIsPutOff(w, n0, NewUnseal, Step(w, OldRemove, n, Head(Tail(script))).1, Tail(Tail(script)));
        }
      }
    } else {
      RenewingIsPutOff(w, n0, NewUnseal, n, script);
    }
  }

  lemma OldSteps(w: Work, n0: Node, n: Node, c: Choice, d: Choice)
    requires IsRotation(w) && w.tag in n0.inbounds && Rotating(w, n0, n) && Honest(d)
    requires Safety(w) in n.inbounds[w.tag].clients && w.expected in n.inbounds[w.tag].clients
    ensures Step(w, OldFence, n, c) == (if c.held then OldRemove else End(Abandon), n)
    ensures var (pc', n') := Step(w, OldRemove, n, d);
            if d.fault.Clean? then pc' == NewUnseal
            else pc' == End(Retry(d.fault.cause)) && Leaves(w, n, n', d.fault.applied)
  {
    hide EmitDrift, EmitCreate, NextDrift, NextCreate, OthersSame, Bystanders, Serve;
    RemovalServes(n, w.tag, w.expected, d.fault);
  }

  lemma RemovalServes(n: Node, tag: string, id: string, fault: Fault)
    requires IsPanelNamespace(tag) && id != "" && tag in n.inbounds
    requires id in n.inbounds[tag].clients && RotationSafetyId(id) in n.inbounds[tag].clients
    ensures var (n', a) := Serve(n, RemoveUser(tag, id, id), fault);
            && tag in n'.inbounds
            && n'.inbounds[tag].clients == n.inbounds[tag].clients - (if fault.Clean? || fault.applied then {id} else {})
            && a == (if fault.Clean? then Ack else Refused(fault.cause))
  {
  }

  /** From the addition of the desired credential on nothing is final, whatever is refused. */
  predicate IsRenewing(pc: Pc) { IsNewPc(pc) || pc.CleanFence? || pc.CleanRemove? }

  lemma RenewingStep(w: Work, n0: Node, pc: Pc, n: Node, c: Choice)
    requires IsRotation(w) && w.tag in n0.inbounds && IsRenewing(pc) && AtRotate(w, n0, pc, n) && Honest(c)
    ensures var pc' := Step(w, pc, n, c).0; IsRenewing(pc') || (pc'.End? && !pc'.outcome.Retry?)
  {
    hide EmitDrift, EmitCreate, NextDrift, NextCreate, Rotating, Serve;
    var e := Emit(w, pc);
    if e.Call? {
      RotationReply(w, n0, n, e.rpc, c.fault);
    }
  }

  lemma {:induction false} RenewingIsPutOff(w: Work, n0: Node, pc: Pc, n: Node, script: seq<Choice>)
    requires IsRotation(w) && w.tag in n0.inbounds && IsRenewing(pc) && AtRotate(w, n0, pc, n) && AllHonest(script)
    ensures !Finish(w, pc, n, script).0.Retry?
    decreases Rank(pc)
  {
    hide Step, AtRotate;
    TailNth(script);
    RenewingStep(w, n0, pc, n, Head(script));
    RotateKeeps(w, n0, pc, n, Head(script));
    var (pc', n') := Step(w, pc, n, Head(script));
    if !pc'.End? {
      RenewingIsPutOff(w, n0, pc', n', Tail(script));
    }
  }

  /** When a rotation that failed for a reason which may be final has left its inbound without the expected client:
      exactly if that client was missing already and the look at the inbound or the transition client was refused, or if
      the removal of the old credential was refused and carried out all the same. */
  lemma HalfwayExactlyWhen(w: Work, n: Node, script: seq<Choice>, c: Cause)
    requires IsRotation(w) && w.tag in n.inbounds && AllHonest(script)
    ensures var (o, n') := Finish(w, Start(w), n, script);
            o == Retry(c) && w.expected !in ClientsOf(n', w.tag) <==>
            || (w.expected !in ClientsOf(n, w.tag) && (ListingRefused(script, c) || TransitionRefused(w, n, script, c)))
            || OldRefusedButGone(w, n, script, c)
  {
    hide Finish;
    RotationRetriesExactlyWhen(w, n, script, c);
    var (o, n') := Finish(w, Start(w), n, script);
    if o == Retry(c) {
      var gone := OldRefusedButGone(w, n, script, c);
      var before, after := n.inbounds[w.tag].clients, n'.inbounds[w.tag].clients;
      assert w.expected in after <==> w.expected in after - {Safety(w)};
      assert w.expected in before <==> w.expected in before - {Safety(w)};
    }
  }

  /** The cause of the one refusal that stopped a rotation before it tried to add the desired credential. */
  function Refusal(w: Work, n: Node, script: seq<Choice>): Option<Cause> {
    var at := Placed(w, n, script);
    if Nth(script, 0).held && Nth(script, 1).fault.Broken? then Some(Nth(script, 1).fault.cause)
    else if Nth(script, 4).fault.Broken? && TransitionRefused(w, n, script, Nth(script, 4).fault.cause) then Some(Nth(script, 4).fault.cause)
    else if at.Some? && w.expected in ClientsOf(n, w.tag) && Nth(script, at.value).held && Nth(script, at.value + 1).fault.Broken?
    then Some(Nth(script, at.value + 1).fault.cause)
    else None
  }

  lemma RetriesForItsRefusal(w: Work, n: Node, script: seq<Choice>, c: Cause)
    requires IsRotation(w) && w.tag in n.inbounds && AllHonest(script)
    ensures Finish(w, Start(w), n, script).0 == Retry(c) <==> Refusal(w, n, script) == Some(c)
  {
    hide Finish, Leaves;
    RotationRetriesExactlyWhen(w, n, script, c);
  }

  // ---- rotating what is gone ----

  /** A rotation that finds no inbound becomes a creation, at once or after the transition client was turned away. */
  lemma LostRotationRetriesExactlyWhen(w: Work, n: Node, script: seq<Choice>, c: Cause)
    requires IsRotation(w) && w.tag !in n.inbounds && AllHonest(script)
    ensures Finish(w, Start(w), n, script).0 == Retry(c) <==>
            || ListingRefused(script, c)
            || (Listed(script) && n.strict && CreationRefused(w, n, script, 2, c))
            || (Listed(script) && !n.strict && Nth(script, 2).ok && Nth(script, 3).held &&
                if Nth(script, 4).fault.Clean? then CreationRefused(w, n, script, 5, c)
                else Fails(Nth(script, 4), c) && (c.retryable && c.kind != InstanceUnavailable ==> Nth(script, 5).held))
  {
    hide Finish, Step, CreationRefused;
    TailNth(script);
    TailNth(Tail(script));
    Endings(w);
    Advance(w, RotateFence, n, script);
    LostLookSteps(w, n, Head(script), Head(Tail(script)));
    if Nth(script, 0).held {
      Advance(w, RotateList, n, Tail(script));
      if Nth(script, 1).fault.Clean? {
        var rest := Tail(Tail(script));
        if n.strict {
          CreationRetriesExactlyWhen(w, n, rest, c);
          CreationShifts(w, n, script, 2, rest, c);
        } else {
          LostPlacingRetries(w, n, rest, c);
          CreationLater(w, n, script, rest, c);
        }
      }
    }
  }

  lemma CreationShifts(w: Work, n: Node, script: seq<Choice>, i: nat, rest: seq<Choice>, c: Cause)
    requires w.Sync? && forall j: nat :: Nth(rest, j) == Nth(script, i + j)
    ensures CreationRefused(w, n, rest, 0, c) == CreationRefused(w, n, script, i, c)
  {
    hide Nth, Blocked;
    assert Nth(rest, 0) == Nth(script, i + 0) && Nth(rest, 1) == Nth(script, i + 1) && Nth(rest, 2) == Nth(script, i + 2);
    assert Nth(rest, 3) == Nth(script, i + 3) && Nth(rest, 4) == Nth(script, i + 4);
  }

  lemma CreationLater(w: Work, n: Node, script: seq<Choice>, rest: seq<Choice>, c: Cause)
    requires w.Sync? && forall j: nat :: Nth(rest, j) == Nth(script, 2 + j)
    ensures CreationRefused(w, n, rest, 3, c) == CreationRefused(w, n, script, 5, c)
  {
    hide Nth, Blocked;
    assert Nth(rest, 3) == Nth(script, 2 + 3) && Nth(rest, 4) == Nth(script, 2 + 4) && Nth(rest, 5) == Nth(script, 2 + 5);
    assert Nth(rest, 6) == Nth(script, 2 + 6) && Nth(rest, 7) == Nth(script, 2 + 7);
  }

  lemma LostLookSteps(w: Work, n: Node, c: Choice, d: Choice)
    requires IsRotation(w) && w.tag !in n.inbounds && Honest(d)
    ensures Step(w, RotateFence, n, c) == (if c.held then RotateList else End(Abandon), n)
    ensures Step(w, RotateList, n, d) ==
            (if d.fault.Broken? then End(Retry(d.fault.cause)) else if n.strict then CreateUnseal else SafetyUnseal(false), n)
  {
    hide EmitDrift, EmitCreate, NextDrift, NextCreate;
  }

  lemma LostPlacingRetries(w: Work, n: Node, script: seq<Choice>, c: Cause)
    requires IsRotation(w) && w.tag !in n.inbounds && !n.strict && AllHonest(script)
    ensures Finish(w, SafetyUnseal(false), n, script).0 == Retry(c) <==>
            Nth(script, 0).ok && Nth(script, 1).held &&
            if Nth(script, 2).fault.Clean? then CreationRefused(w, n, script, 3, c)
            else Fails(Nth(script, 2), c) && (c.retryable && c.kind != InstanceUnavailable ==> Nth(script, 3).held)
  {
    hide Finish, Step, CreationRefused;
    TailNth(script);
    TailNth(Tail(script));
    Endings(w);
    Advance(w, SafetyUnseal(false), n, script);
    SafetyOpens(w, n, false, Head(script), Head(Tail(script)));
    if Nth(script, 0).ok {
      Advance(w, SafetyFence(false), n, Tail(script));
      if Nth(script, 1).held {
        LostAddingRetries(w, n, Tail(Tail(script)), c);
        if Nth(script, 2).fault.Clean? {
          var rest := Tail(Tail(Tail(script)));
          CreationShifts(w, n, Tail(Tail(script)), 1, rest, c);
          CreationShifts(w, n, script, 3, rest, c);
        }
      }
    }
  }

  lemma LostAddingRetries(w: Work, n: Node, script: seq<Choice>, c: Cause)
    requires IsRotation(w) && w.tag !in n.inbounds && !n.strict && AllHonest(script)
    ensures Finish(w, SafetyAdd(false), n, script).0 == Retry(c) <==>
            if Nth(script, 0).fault.Clean? then CreationRefused(w, n, script, 1, c)
            else Fails(Nth(script, 0), c) && (c.retryable && c.kind != InstanceUnavailable ==> Nth(script, 1).held)
  {
    hide Finish, Step, CreationRefused;
    TailNth(script);
    TailNth(Tail(script));
    Endings(w);
    Advance(w, SafetyAdd(false), n, script);
    var fault := Head(script).fault;
    LostAddStep(w, n, Head(script));
    if fault.Clean? {
      CreationRetriesExactlyWhen(w, n, Tail(script), c);
      CreationShifts(w, n, script, 1, Tail(script), c);
    } else if IsUncertain(fault.cause) {
      Advance(w, SafetyFence2(false, fault.cause), n, Tail(script));
      Advance(w, SafetyObserve(false, fault.cause), n, Tail(Tail(script)));
      LostSafetyLook(w, n, fault.cause, Head(Tail(script)), Head(Tail(Tail(script))));
    }
  }

  lemma LostAddStep(w: Work, n: Node, c: Choice)
    requires IsRotation(w) && w.tag !in n.inbounds && Honest(c)
    ensures Step(w, SafetyAdd(false), n, c) ==
            (if c.fault.Clean? then CreateUnseal
             else if IsUncertain(c.fault.cause) then SafetyFence2(false, c.fault.cause)
             else End(Retry(c.fault.cause)), n)
  {
    hide EmitDrift, EmitCreate, NextDrift, NextCreate;
  }

  lemma LostSafetyLook(w: Work, n: Node, cause: Cause, c: Choice, d: Choice)
    requires w.Sync? && w.tag !in n.inbounds && Honest(d)
    ensures Step(w, SafetyFence2(false, cause), n, c) == (if c.held then SafetyObserve(false, cause) else End(Abandon), n)
    ensures Step(w, SafetyObserve(false, cause), n, d) == (End(Retry(cause)), n)
  {
    hide EmitDrift, EmitCreate, NextDrift, NextCreate;
  }

  // ---- failures that pass ----

  predicate Passing(c: Cause) { c.retryable && c.kind != Internal }

  predicate AllPassing(script: seq<Choice>) {
    forall i :: 0 <= i < |script| && script[i].fault.Broken? ==> Passing(script[i].fault.cause)
  }

  /** If all that fails is passing, an attempt ends in a failure that may be final only by a listing lost after "already
      exists". */
  lemma PassingFailuresPass(w: Work, n: Node, script: seq<Choice>, c: Cause)
    requires w.Sync? && Proper(w) && AllHonest(script) && AllPassing(script)
    requires Finish(w, Start(w), n, script).0 == Retry(c)
    ensures Passing(c) || c == Cause(InboundAlreadyExists, false)
  {
    hide Finish, Blocked, Proper;
    if !w.presence {
      RemovalRetriesExactlyWhen(w, n, script, c);
    } else if w.reason == PortChange {
      PortChangeRetriesExactlyWhen(w, n, script, c);
    } else if w.reason != Rotate {
      CreationRetriesExactlyWhen(w, n, script, c);
    } else if w.tag in n.inbounds {
      RotationRetriesExactlyWhen(w, n, script, c);
    } else {
      LostRotationRetriesExactlyWhen(w, n, script, c);
    }
  }

  // ---- removing something unknown ----

  /** What a listing says of the target. */
  predicate SeenGone(w: Work, n: Node)
    requires w.Drift?
  {
    if w.whole then w.tag !in n.inbounds
    else if w.tag in n.inbounds then w.target !in n.inbounds[w.tag].clients
    else !n.strict
  }

  /** Why an undisturbed removal is refused: it is outside the namespace, nobody knows whose inbound it is, or the client
      is the last one that may keep it. */
  function Objection(w: Work, n: Node): Option<ErrorKind>
    requires w.Drift?
  {
    if !IsPanelNamespace(w.tag) then Some(InvalidArgument)
    else if w.whole then None
    else if w.expected == "" then Some(InvalidArgument)
    else if w.tag in n.inbounds && w.target in n.inbounds[w.tag].clients && !Kept(n.inbounds[w.tag].clients, w.target, w.expected)
    then Some(LastManagedClient)
    else None
  }

  /** Without the target the inbound still has its own client, or that client's transition identity. */
  predicate Kept(clients: map<string, Secret>, target: string, expected: string) {
    var rest := clients.Keys - {target};
    expected in rest || expected + ROTATION_SUFFIX in rest
  }

  predicate GoneAfter(w: Work, n: Node, applied: bool)
    requires w.Drift?
  {
    SeenGone(w, n) || (applied && Objection(w, n).None? && (w.whole || w.tag in n.inbounds))
  }

  /** From the call on: it is refused, or it fails and the target is not seen to be gone. */
  predicate CleaningRefused(w: Work, n: Node, script: seq<Choice>, i: nat, c: Cause)
    requires w.Drift?
  {
    var call := Nth(script, i).fault;
    if call.Clean? then Objection(w, n).Some? && c == Cause(Objection(w, n).value, false)
    else
      && c == call.cause
      && (c.retryable && c.kind != InstanceUnavailable ==>
            Nth(script, i + 1).held && (Nth(script, i + 2).fault.Broken? || !GoneAfter(w, n, call.applied)))
  }

  predicate CleaningDone(w: Work, n: Node, script: seq<Choice>, i: nat)
    requires w.Drift?
  {
    var call := Nth(script, i).fault;
    if call.Clean? then Objection(w, n).None?
    else
      && call.cause.retryable && call.cause.kind != InstanceUnavailable
      && Nth(script, i + 1).held && Nth(script, i + 2).fault.Clean? && GoneAfter(w, n, call.applied)
  }

  /** A removal taken over from another worker looks first. */
  predicate FoundGone(w: Work, n: Node, script: seq<Choice>)
    requires w.Drift?
  {
    w.reclaimed && Nth(script, 1).fault.Clean? && SeenGone(w, n)
  }

  lemma DriftEndsExactlyWhen(w: Work, n: Node, script: seq<Choice>, c: Cause)
    requires w.Drift? && AllHonest(script)
    ensures Finish(w, Start(w), n, script).0 == Retry(c) <==>
            && Nth(script, 0).held && !FoundGone(w, n, script)
            && CleaningRefused(w, n, script, if w.reclaimed then 2 else 1, c)
    ensures Finish(w, Start(w), n, script).0.Confirm? <==>
            && Nth(script, 0).held
            && (FoundGone(w, n, script) || CleaningDone(w, n, script, if w.reclaimed then 2 else 1))
  {
    hide Finish, Step, Objection, SeenGone;
    TailNth(script);
    TailNth(Tail(script));
    Endings(w);
    Advance(w, DriftFence, n, script);
    DriftLookSteps(w, n, Head(script), Head(Tail(script)));
    if Nth(script, 0).held {
      if w.reclaimed {
        Advance(w, DriftPeek, n, Tail(script));
        if !FoundGone(w, n, script) { CleaningCalled(w, n, Tail(Tail(script)), c); }
      } else {
        CleaningCalled(w, n, Tail(script), c);
      }
    }
  }

  lemma DriftLookSteps(w: Work, n: Node, c: Choice, d: Choice)
    requires w.Drift? && Honest(d)
    ensures Step(w, DriftFence, n, c) == (if !c.held then End(Abandon) else if w.reclaimed then DriftPeek else DriftRemove, n)
    ensures Step(w, DriftPeek, n, d) == (if d.fault.Clean? && SeenGone(w, n) then End(Confirm(false, 0)) else DriftRemove, n)
  {
    hide EmitRotate, EmitCreate, NextRotate, NextCreate;
  }

  lemma CleaningCalled(w: Work, n: Node, script: seq<Choice>, c: Cause)
    requires w.Drift? && AllHonest(script)
    ensures Finish(w, DriftRemove, n, script).0 == Retry(c) <==> CleaningRefused(w, n, script, 0, c)
    ensures Finish(w, DriftRemove, n, script).0.Confirm? <==> CleaningDone(w, n, script, 0)
  {
    hide Finish, Step, Objection, SeenGone, GoneAfter;
    TailNth(script);
    TailNth(Tail(script));
    Endings(w);
    Advance(w, DriftRemove, n, script);
    DriftRemoveStep(w, n, Head(script));
    var fault := Head(script).fault;
    if fault.Broken? && IsUncertain(fault.cause) {
      var n' := Step(w, DriftRemove, n, Head(script)).1;
      Advance(w, DriftFence2(fault.cause), n', Tail(script));
      Advance(w, DriftObserve(fault.cause), n', Tail(Tail(script)));
      DriftLastLook(w, fault.cause, n', Head(Tail(script)), Head(Tail(Tail(script))));
    }
  }

  lemma DriftRemoveStep(w: Work, n: Node, c: Choice)
    requires w.Drift? && Honest(c)
    ensures var (pc', n') := Step(w, DriftRemove, n, c);
            match c.fault
            case Clean =>
              pc' == End(if Objection(w, n).None? then Confirm(false, 0) else Retry(Cause(Objection(w, n).value, false)))
            case Broken(cause, applied) =>
              && pc' == (if IsUncertain(cause) then DriftFence2(cause) else End(Retry(cause)))
              && SeenGone(w, n') == GoneAfter(w, n, applied)
  {
    hide EmitRotate, EmitCreate, NextRotate, NextCreate, Serve, Objection, SeenGone, GoneAfter;
    DriftServes(w, n, c.fault);
  }

  lemma DriftServes(w: Work, n: Node, fault: Fault)
    requires w.Drift?
    ensures var (n', a) := Serve(n, DriftRemoveRpc(w), fault);
            match fault
            case Clean =>
              if Objection(w, n).Some? then
                a == Refused(Cause(Objection(w, n).value, false)) && a.cause.kind in {InvalidArgument, LastManagedClient}
              else a == Ack || (a.Refused? && a.cause.kind in {UserNotFound, InboundNotFound})
            case Broken(cause, applied) => a == Refused(cause) && SeenGone(w, n') == GoneAfter(w, n, applied)
  {
    if w.whole || w.tag !in n.inbounds {
      assert fault.Broken? ==> SeenGone(w, Serve(n, DriftRemoveRpc(w), fault).0) == GoneAfter(w, n, fault.applied);
    } else {
      KeptIsSurvivor(n.inbounds[w.tag].clients, w.target, w.expected);
    }
  }

  lemma KeptIsSurvivor(clients: map<string, Secret>, target: string, expected: string)
    ensures Kept(clients, target, expected) <==> HasSurvivor(clients, target, expected)
  {
  }

  lemma DriftLastLook(w: Work, cause: Cause, n: Node, c: Choice, d: Choice)
    requires w.Drift? && Honest(d)
    ensures Step(w, DriftFence2(cause), n, c) == (if c.held then DriftObserve(cause) else End(Abandon), n)
    ensures Step(w, DriftObserve(cause), n, d) ==
            (if d.fault.Clean? && SeenGone(w, n) then End(Confirm(false, 0)) else End(Retry(cause)), n)
  {
    hide EmitRotate, EmitCreate, NextRotate, NextCreate;
  }

  // ---- the other endings ----

  predicate AllHeld(script: seq<Choice>) { forall i :: 0 <= i < |script| ==> script[i].held }

  predicate AllOk(script: seq<Choice>) { forall i :: 0 <= i < |script| ==> script[i].ok }

  /** One step abandons only for a lost lease and gives up only for a key. */
  predicate OnlyThen(pc: Pc, c: Choice, pc': Pc) {
    && (pc' == End(Abandon) ==> !c.held)
    && (pc'.End? && pc'.outcome.GiveUp? ==> !c.ok && pc' == End(GiveUp(Internal)))
  }

  lemma DriftOnlyThen(w: Work, pc: Pc, n: Node, c: Choice)
    requires Fits(w, pc) && IsDriftPc(pc)
    ensures OnlyThen(pc, c, Step(w, pc, n, c).0)
  {
    hide EmitRotate, EmitCreate, NextRotate, NextCreate, Serve;
  }

  lemma CreateOnlyThen(w: Work, pc: Pc, n: Node, c: Choice)
    requires Fits(w, pc) && !pc.End? && !IsDriftPc(pc) && !IsRotatePc(pc)
    ensures OnlyThen(pc, c, Step(w, pc, n, c).0)
  {
    hide EmitDrift, EmitRotate, NextDrift, NextRotate, Serve;
  }

  lemma PlacingOnlyThen(w: Work, pc: Pc, n: Node, c: Choice)
    requires Fits(w, pc) && (IsLookPc(pc) || IsSafetyPc(pc))
    ensures OnlyThen(pc, c, Step(w, pc, n, c).0)
  {
    hide EmitDrift, EmitCreate, NextDrift, NextCreate, Perform;
  }

  lemma RenewalOnlyThen(w: Work, pc: Pc, n: Node, c: Choice)
    requires Fits(w, pc) && IsRotatePc(pc) && !IsLookPc(pc) && !IsSafetyPc(pc)
    ensures OnlyThen(pc, c, Step(w, pc, n, c).0)
  {
    hide EmitDrift, EmitCreate, NextDrift, NextCreate, Serve;
  }

  lemma StepOnlyThen(w: Work, pc: Pc, n: Node, c: Choice)
    requires Fits(w, pc) && !pc.End?
    ensures OnlyThen(pc, c, Step(w, pc, n, c).0)
  {
    hide Step, OnlyThen;
    if IsDriftPc(pc) {
      DriftOnlyThen(w, pc, n, c);
    } else if !IsRotatePc(pc) {
      CreateOnlyThen(w, pc, n, c);
    } else if IsLookPc(pc) || IsSafetyPc(pc) {
      PlacingOnlyThen(w, pc, n, c);
    } else {
      RenewalOnlyThen(w, pc, n, c);
    }
  }

  /** Work is abandoned only when a lease was lost, and given up at once only when a key would not decrypt. */
  lemma {:induction false} EndingsHaveCauses(w: Work, pc: Pc, n: Node, script: seq<Choice>)
    requires Fits(w, pc) && (pc.End? ==> !pc.outcome.Abandon? && !pc.outcome.GiveUp?)
    ensures AllHeld(script) ==> !Finish(w, pc, n, script).0.Abandon?
    ensures AllOk(script) ==> !Finish(w, pc, n, script).0.GiveUp?
    decreases Rank(pc)
  {
    hide Step;
    if !pc.End? {
      StepOnlyThen(w, pc, n, Head(script));
      var (pc', n') := Step(w, pc, n, Head(script));
      if pc' != End(Abandon) && !(pc'.End? && pc'.outcome.GiveUp?) {
        EndingsHaveCauses(w, pc', n', Tail(script));
      }
    }
  }
}
