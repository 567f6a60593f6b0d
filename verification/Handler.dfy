/** The worker's procedures as the code runs them: calls in sequence, guarded by local flags. Each is
    proved to do exactly what the machine of `Synchronizer` does under the same script of failures. */
module Handler {
  import opened Domain
  import opened Xray
  import opened Synchronizer

  class Session {
    const adapter: Adapter
    var script: seq<Choice>

    constructor (adapter: Adapter, script: seq<Choice>)
      ensures this.adapter == adapter && this.script == script
    {
      this.adapter, this.script := adapter, script;
    }

    /** What remains to happen from a program point, given the node and the failures still to come. */
    ghost function Rest(w: Work, pc: Pc): (Outcome, Node)
      requires Fits(w, pc)
      reads this, adapter
    {
      Finish(w, pc, adapter.State(), script)
    }

    method Draw() returns (c: Choice)
      modifies this`script
      ensures c == Head(old(script)) && script == Tail(old(script))
    {
      c := Head(script);
      script := Tail(script);
    }

    method Fence(w: Work, ghost pc: Pc) returns (held: bool)
      requires Fits(w, pc) && !pc.End? && Emit(w, pc) == Effect.Fence
      modifies this`script
      ensures Rest(w, Next(w, pc, Held(held))) == old(Rest(w, pc))
    {
      var c := Draw();
      held := c.held;
    }

    method Unseal(w: Work, ghost pc: Pc) returns (ok: bool)
      requires Fits(w, pc) && !pc.End? && Emit(w, pc) == Effect.Unseal
      modifies this`script
      ensures Rest(w, Next(w, pc, Unsealed(ok))) == old(Rest(w, pc))
    {
      var c := Draw();
      ok := c.ok;
    }

    method Call(w: Work, ghost pc: Pc, rpc: Rpc) returns (answer: Answer)
      requires Fits(w, pc) && !pc.End? && Emit(w, pc) == Effect.Call(rpc)
      modifies this`script, adapter`inbounds
      ensures Answers(Emit(w, pc), Answered(answer))
      ensures Rest(w, Next(w, pc, Answered(answer))) == old(Rest(w, pc))
    {
      ghost var before := adapter.State();
      var c := Draw();
      match rpc {
        case CreateInbound(tag, port, client, secret) => answer := adapter.Create(tag, port, client, secret, c.fault);
        case RemoveInbound(tag) => answer := adapter.Remove(tag, c.fault);
        case AddUser(tag, id, secret) => answer := adapter.Add(tag, id, secret, c.fault);
        case RemoveUser(tag, id, expected) => answer := adapter.RemoveClient(tag, id, expected, c.fault);
        case ListInbounds => answer := adapter.Tags(c.fault);
        case ListUsers(tag) => answer := adapter.Users(tag, c.fault);
      }
      assert (adapter.State(), answer) == Serve(before, rpc, c.fault);
    }

    /** Projects one synchronization intent: remove, rotate, or (after removing for a port change) create. */
    method Handle(w: Work) returns (o: Outcome)
      requires w.Sync?
      modifies this`script, adapter`inbounds
      ensures (o, adapter.State()) == old(Rest(w, Start(w)))
    {
      hide Finish, EmitDrift, EmitRotate, NextDrift, NextRotate;
      Endings(w);
      if !w.presence {
        o := StopListening(w);
        return;
      }
      if w.reason == Rotate {
        o := RotateWithinInbound(w);
        return;
      }
      if w.reason == PortChange {
        var held := Fence(w, PortFence);
        if !held { return Abandon; }
        var answer := Call(w, PortRemove, RemoveInbound(w.tag));
        if answer.Refused? && answer.cause.kind != InboundNotFound { return Retry(answer.cause); }
      }
      o := CreateDedicatedInbound(w);
    }

    /** The whole inbound goes; one that is not there counts as gone. */
    method StopListening(w: Work) returns (o: Outcome)
      requires w.Sync?
      modifies this`script, adapter`inbounds
      ensures (o, adapter.State()) == old(Rest(w, RemoveFence))
    {
      hide Finish, EmitDrift, EmitRotate, NextDrift, NextRotate;
      Endings(w);
      var held := Fence(w, RemoveFence);
      if !held { return Abandon; }
      var answer := Call(w, RemoveCall, RemoveInbound(w.tag));
      if answer.Refused? && answer.cause.kind != InboundNotFound {
        if !IsUncertain(answer.cause) { return Retry(answer.cause); }
        held := Fence(w, RemoveFence2(answer.cause));
        if !held { return Abandon; }
        var seen := Call(w, RemoveObserve(answer.cause), ListInbounds);
        if !seen.Tags? || w.tag in seen.tags { return Retry(answer.cause); }
      }
      return Confirm(false, 0);
    }

    /** Registration may outlive a failed call, so every failure is followed by a look at the node. */
    method CreateDedicatedInbound(w: Work) returns (o: Outcome)
      requires w.Sync?
      modifies this`script, adapter`inbounds
      ensures (o, adapter.State()) == old(Rest(w, CreateUnseal))
    {
      hide Finish, EmitDrift, EmitRotate, NextDrift, NextRotate;
      Endings(w);
      var ok := Unseal(w, CreateUnseal);
      if !ok { return GiveUp(Internal); }
      var held := Fence(w, CreateFence);
      if !held { return Abandon; }
      var answer := Call(w, CreateCall, CreateRpc(w));
      if !answer.Refused? { return Confirm(true, w.version); }
      var kind := answer.cause.kind;
      if IsUncertain(answer.cause) {
        o := LookForInbound(w, answer.cause);
        return;
      }
      if kind == PortUnavailable || kind == InboundAlreadyExists {
        o := ResolveResidue(w, kind);
        return;
      }
      return Retry(answer.cause);
    }

    /** The call may have been applied before it failed. */
    method LookForInbound(w: Work, cause: Cause) returns (o: Outcome)
      requires w.Sync?
      modifies this`script, adapter`inbounds
      ensures (o, adapter.State()) == old(Rest(w, UncertainFence(cause)))
    {
      hide Finish, EmitDrift, EmitRotate, NextDrift, NextRotate;
      Endings(w);
      var held := Fence(w, UncertainFence(cause));
      if !held { return Abandon; }
      var seen := Call(w, UncertainObserve(cause), ListInbounds);
      if seen.Tags? && w.tag in seen.tags { return Confirm(true, w.version); }
      return Retry(cause);
    }

    /** The tag may be registered without listening, or carry the wrong clients: look, then compensate. */
    method ResolveResidue(w: Work, kind: ErrorKind) returns (o: Outcome)
      requires w.Sync? && (kind == PortUnavailable || kind == InboundAlreadyExists)
      modifies this`script, adapter`inbounds
      ensures (o, adapter.State()) == old(Rest(w, ResidueFence(kind)))
    {
      hide Finish, EmitDrift, EmitRotate, NextDrift, NextRotate;
      Endings(w);
      var held := Fence(w, ResidueFence(kind));
      if !held { return Abandon; }
      var seen := Call(w, ResidueObserve(kind), ListInbounds);
      if seen.Tags? && w.tag in seen.tags {
        if kind == PortUnavailable {
          var _ := Call(w, CompensatePort, RemoveInbound(w.tag));
        } else {
          o := KeepOrClear(w);
          return;
        }
      }
      if kind == PortUnavailable { return RetryLater(Cause(kind, false)); }
      return Retry(Cause(kind, false));
    }

    /** An inbound that carries the expected client stays, any other is cleared away. */
    method KeepOrClear(w: Work) returns (o: Outcome)
      requires w.Sync?
      modifies this`script, adapter`inbounds
      ensures (o, adapter.State()) == old(Rest(w, ResidueHealthy))
    {
      hide Finish, EmitDrift, EmitRotate, NextDrift, NextRotate;
      Endings(w);
      var users := Call(w, ResidueHealthy, ListUsers(w.tag));
      if users.Clients? && w.expected in users.ids { return Confirm(true, w.version); }
      var _ := Call(w, CompensateResidue, RemoveInbound(w.tag));
      return RetryLater(Cause(InboundAlreadyExists, false));
    }

    /** Four steps around a transition client, each driven by what is actually on the node. */
    method RotateWithinInbound(w: Work) returns (o: Outcome)
      requires w.Sync?
      modifies this`script, adapter`inbounds
      ensures (o, adapter.State()) == old(Rest(w, RotateFence))
    {
      hide Finish, EmitDrift, EmitCreate, NextDrift, NextCreate;
      Endings(w);
      var held := Fence(w, RotateFence);
      if !held { return Abandon; }
      var remote := Call(w, RotateList, ListUsers(w.tag));
      if remote.Refused? {
        if remote.cause.kind == InboundNotFound {
          o := CreateDedicatedInbound(w);
          return;
        }
        return Retry(remote.cause);
      }
      var present := w.expected in remote.ids;
      if Safety(w) !in remote.ids {
        var early := PlaceTransitionClient(w, present);
        if early.Some? { return early.value; }
      }
      if present {
        var early := RemoveOldCredential(w);
        if early.Some? { return early.value; }
      }
      var early := AddDesiredCredential(w);
      if early.Some? { return early.value; }

      o := RemoveTransitionClient(w);
    }

    /** Step 1: a transition client stands by before the expected client is touched. */
    method PlaceTransitionClient(w: Work, present: bool) returns (early: Option<Outcome>)
      requires w.Sync?
      modifies this`script, adapter`inbounds
      ensures early.Some? ==> (early.value, adapter.State()) == old(Rest(w, SafetyUnseal(present)))
      ensures early.None? ==> Rest(w, AfterSafety(present)) == old(Rest(w, SafetyUnseal(present)))
    {
      hide Finish, EmitDrift, EmitCreate, NextDrift, NextCreate;
      Endings(w);
      var ok := Unseal(w, SafetyUnseal(present));
      if !ok { return Some(GiveUp(Internal)); }
      var held := Fence(w, SafetyFence(present));
      if !held { return Some(Abandon); }
      var added := Call(w, SafetyAdd(present), AddUser(w.tag, Safety(w), Throwaway));
      if added.Refused? && added.cause.kind != UserAlreadyExists {
        if added.cause.kind == InboundNotFound {
          var o := CreateDedicatedInbound(w);
          return Some(o);
        }
        if !IsUncertain(added.cause) { return Some(Retry(added.cause)); }
        early := LookForTransitionClient(w, present, added.cause);
        return;
      }
      return None;
    }

    method LookForTransitionClient(w: Work, present: bool, cause: Cause) returns (early: Option<Outcome>)
      requires w.Sync?
      modifies this`script, adapter`inbounds
      ensures early.Some? ==> (early.value, adapter.State()) == old(Rest(w, SafetyFence2(present, cause)))
      ensures early.None? ==> Rest(w, AfterSafety(present)) == old(Rest(w, SafetyFence2(present, cause)))
    {
      hide Finish, EmitDrift, EmitCreate, NextDrift, NextCreate;
      Endings(w);
      var held := Fence(w, SafetyFence2(present, cause));
      if !held { return Some(Abandon); }
      var users := Call(w, SafetyObserve(present, cause), ListUsers(w.tag));
      if !users.Clients? || Safety(w) !in users.ids { return Some(Retry(cause)); }
      return None;
    }

    /** Step 2: the old credential goes while the transition client keeps the inbound. */
    method RemoveOldCredential(w: Work) returns (early: Option<Outcome>)
      requires w.Sync?
      modifies this`script, adapter`inbounds
      ensures early.Some? ==> (early.value, adapter.State()) == old(Rest(w, OldFence))
      ensures early.None? ==> Rest(w, NewUnseal) == old(Rest(w, OldFence))
    {
      hide Finish, EmitDrift, EmitCreate, NextDrift, NextCreate;
      Endings(w);
      var held := Fence(w, OldFence);
      if !held { return Some(Abandon); }
      var removed := Call(w, OldRemove, RemoveUser(w.tag, w.expected, w.expected));
      if removed.Refused? && removed.cause.kind != UserNotFound {
        if removed.cause.kind == InboundNotFound {
          var o := CreateDedicatedInbound(w);
          return Some(o);
        }
        return Some(Retry(removed.cause));
      }
      return None;
    }

    /** Step 3: the expected identity returns with the desired credential. */
    method AddDesiredCredential(w: Work) returns (early: Option<Outcome>)
      requires w.Sync?
      modifies this`script, adapter`inbounds
      ensures early.Some? ==> (early.value, adapter.State()) == old(Rest(w, NewUnseal))
      ensures early.None? ==> Rest(w, CleanFence) == old(Rest(w, NewUnseal))
    {
      hide Finish, EmitDrift, EmitCreate, NextDrift, NextCreate;
      Endings(w);
      var ok := Unseal(w, NewUnseal);
      if !ok { return Some(GiveUp(Internal)); }
      var held := Fence(w, NewFence);
      if !held { return Some(Abandon); }
      var added := Call(w, NewAdd, AddUser(w.tag, w.expected, Version(w.version)));
      if added.Refused? && added.cause.kind != UserAlreadyExists {
        if added.cause.kind == InboundNotFound {
          var o := CreateDedicatedInbound(w);
          return Some(o);
        }
        if !IsUncertain(added.cause) { return Some(RetryLater(added.cause)); }
        early := LookForDesiredCredential(w, added.cause);
        return;
      }
      return None;
    }

    method LookForDesiredCredential(w: Work, cause: Cause) returns (early: Option<Outcome>)
      requires w.Sync?
      modifies this`script, adapter`inbounds
      ensures early.Some? ==> (early.value, adapter.State()) == old(Rest(w, NewFence2(cause)))
      ensures early.None? ==> Rest(w, CleanFence) == old(Rest(w, NewFence2(cause)))
    {
      hide Finish, EmitDrift, EmitCreate, NextDrift, NextCreate;
      Endings(w);
      var held := Fence(w, NewFence2(cause));
      if !held { return Some(Abandon); }
      var users := Call(w, NewObserve(cause), ListUsers(w.tag));
      if !users.Clients? || w.expected !in users.ids { return Some(RetryLater(cause)); }
      return None;
    }

    /** Step 4: the transition client leaves; until it has left the rotation is not confirmed. */
    method RemoveTransitionClient(w: Work) returns (o: Outcome)
      requires w.Sync?
      modifies this`script, adapter`inbounds
      ensures (o, adapter.State()) == old(Rest(w, CleanFence))
    {
      hide Finish, EmitDrift, EmitCreate, NextDrift, NextCreate;
      Endings(w);
      var held := Fence(w, CleanFence);
      if !held { return Abandon; }
      var cleaned := Call(w, CleanRemove, RemoveUser(w.tag, Safety(w), w.expected));
      if cleaned.Refused? && cleaned.cause.kind != UserNotFound && cleaned.cause.kind != InboundNotFound {
        return RetryLater(cleaned.cause);
      }
      return Confirm(true, w.version);
    }

    /** Removes an unknown inbound or client; a reclaimed lease looks before it removes again. */
    method HandleDriftRemoval(w: Work) returns (o: Outcome)
      requires w.Drift?
      modifies this`script, adapter`inbounds
      ensures (o, adapter.State()) == old(Rest(w, DriftFence))
    {
      hide Finish, EmitRotate, EmitCreate, NextRotate, NextCreate;
      Endings(w);
      var held := Fence(w, DriftFence);
      if !held { return Abandon; }
      if w.reclaimed {
        var seen := Call(w, DriftPeek, DriftObserveRpc(w));
        if DriftSeen(w, seen) == Some(false) { return Confirm(false, 0); }
      }
      var removed := Call(w, DriftRemove, DriftRemoveRpc(w));
      if removed.Refused? && removed.cause.kind != UserNotFound && removed.cause.kind != InboundNotFound {
        if !IsUncertain(removed.cause) { return Retry(removed.cause); }
        o := LookForTarget(w, removed.cause);
        return;
      }
      return Confirm(false, 0);
    }

    method LookForTarget(w: Work, cause: Cause) returns (o: Outcome)
      requires w.Drift?
      modifies this`script, adapter`inbounds
      ensures (o, adapter.State()) == old(Rest(w, DriftFence2(cause)))
    {
      hide Finish, EmitRotate, EmitCreate, NextRotate, NextCreate;
      Endings(w);
      var held := Fence(w, DriftFence2(cause));
      if !held { return Abandon; }
      var seen := Call(w, DriftObserve(cause), DriftObserveRpc(w));
      return if DriftSeen(w, seen) == Some(false) then Confirm(false, 0) else Retry(cause);
    }
  }
}
