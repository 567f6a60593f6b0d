/** Rotation and creation reach their goal whatever earlier attempts left behind; and the one place where a
    single lost reply makes creation give up for good. */
module Convergence {
  import opened Domain
  import opened Xray
  import opened Synchronizer
  import opened Projection

  // ---- rotation ----

  predicate IsRotation(w: Work) { w.Sync? && w.presence && w.reason == Rotate && Proper(w) }

  predicate IsCalmRotatePc(pc: Pc) {
    IsRotatePc(pc) && !pc.SafetyFence2? && !pc.SafetyObserve? && !pc.NewFence2? && !pc.NewObserve?
  }

  lemma CalmRotationStep(w: Work, n0: Node, pc: Pc, n: Node)
    requires IsRotation(w) && w.tag in n0.inbounds && IsCalmRotatePc(pc) && AtRotate(w, n0, pc, n)
    ensures var pc' := Step(w, pc, n, CALM).0; IsCalmRotatePc(pc') || pc' == End(Confirm(true, w.version))
  {
    hide EmitDrift, EmitCreate, NextDrift, NextCreate;
  }

  lemma {:induction false} CalmRotationConfirms(w: Work, n0: Node, pc: Pc, n: Node)
    requires IsRotation(w) && w.tag in n0.inbounds && IsCalmRotatePc(pc) && AtRotate(w, n0, pc, n)
    ensures Finish(w, pc, n, []).0 == Confirm(true, w.version)
    decreases Rank(pc)
  {
    CalmRotationStep(w, n0, pc, n);
    RotateKeeps(w, n0, pc, n, CALM);
    var (pc', n') := Step(w, pc, n, CALM);
    hide AtRotate;
    if !pc'.End? {
      CalmRotationConfirms(w, n0, pc', n');
    }
  }

  /** One attempt: the record it was made for, and how far its script lets it get before the worker dies. */
  datatype Attempt = Attempt(work: Work, script: seq<Choice>)

  /** Rotations of one inbound may carry different versions: a later one supersedes an earlier one. */
  predicate SameInbound(w: Work, a: Attempt) {
    IsRotation(a.work) && a.work.tag == w.tag && a.work.expected == w.expected && AllHonest(a.script)
  }

  function AfterAttempts(n: Node, attempts: seq<Attempt>): Node
    decreases |attempts|
  {
    if attempts == [] then n
    else AfterAttempts(Partial(attempts[0].work, Start(attempts[0].work), n, attempts[0].script), attempts[1..])
  }

  lemma {:induction false} BrokenAttemptsKeepTheInbound(w: Work, n: Node, attempts: seq<Attempt>)
    requires IsRotation(w) && w.tag in n.inbounds
    requires forall i :: 0 <= i < |attempts| ==> SameInbound(w, attempts[i])
    ensures Rotating(w, n, AfterAttempts(n, attempts))
    decreases |attempts|
  {
    if attempts != [] {
      var n' := Partial(attempts[0].work, Start(attempts[0].work), n, attempts[0].script);
      BrokenAttemptKeepsTheInbound(w, n, attempts[0]);
      BrokenAttemptsKeepTheInbound(w, n', attempts[1..]);
    }
  }

  lemma BrokenAttemptKeepsTheInbound(w: Work, n: Node, a: Attempt)
    requires IsRotation(w) && w.tag in n.inbounds && SameInbound(w, a)
    ensures Rotating(w, n, Partial(a.work, Start(a.work), n, a.script))
  {
    hide Partial, At;
    var pc := Start(a.work);
    AtStart(a.work, n, pc);
    PartialKeeps(a.work, n, pc, n, a.script);
  }

  /** However many attempts broke off, at whatever call, applied or not: one undisturbed attempt confirms and
      leaves the expected identity at the desired version, no transition client, and everything else (port, tag,
      bystanding clients, other inbounds) as it was before the first attempt. */
  lemma RotationConverges(w: Work, n: Node, attempts: seq<Attempt>)
    requires IsRotation(w) && w.tag in n.inbounds
    requires forall i :: 0 <= i < |attempts| ==> SameInbound(w, attempts[i])
    ensures Finish(w, Start(w), AfterAttempts(n, attempts), []) == (Confirm(true, w.version), Rotated(w, n))
  {
    hide Finish;
    BrokenAttemptsKeepTheInbound(w, n, attempts);
    var n1 := AfterAttempts(n, attempts);
    CalmRotation(w, n1);
    RotatedAlike(w, n, n1);
  }

  lemma CalmRotation(w: Work, n: Node)
    requires IsRotation(w) && w.tag in n.inbounds
    ensures Finish(w, Start(w), n, []) == (Confirm(true, w.version), Rotated(w, n))
  {
    hide Finish;
    assert AtRotate(w, n, RotateFence, n);
    CalmRotationConfirms(w, n, RotateFence, n);
    ConfirmIsTruthful(w, n, []);
  }

  lemma RotatedAlike(w: Work, n: Node, n1: Node)
    requires w.Sync? && Rotating(w, n, n1)
    ensures Rotated(w, n1) == Rotated(w, n)
  {
    var a, b := Rotated(w, n).inbounds, Rotated(w, n1).inbounds;
    assert n.inbounds - {w.tag} == n1.inbounds - {w.tag};
    assert forall tag :: tag in n.inbounds && tag != w.tag ==> tag in n.inbounds - {w.tag};
    assert forall tag :: tag in n1.inbounds && tag != w.tag ==> tag in n1.inbounds - {w.tag};
    forall tag | tag in a
      ensures tag in b && a[tag] == b[tag]
    {
      if tag != w.tag {
        assert tag in n.inbounds - {w.tag};
        assert a[tag] == (n.inbounds - {w.tag})[tag] == b[tag];
      }
    }
    forall tag | tag in b
      ensures tag in a
    {
      if tag != w.tag {
        assert tag in n1.inbounds - {w.tag};
      }
    }
    assert a == b;
  }

  // ---- creation ----

  predicate IsCreation(w: Work) {
    w.Sync? && w.presence && w.reason != Rotate && w.reason != PortChange && Proper(w)
  }

  predicate Carries(w: Work, n: Node) { w.expected in ClientsOf(n, w.tag) }

  /** The client looks for the port first, and finds somebody on it. */
  predicate Blocked(w: Work, n: Node)
    requires w.Sync?
  {
    n.probes && Bound(n, w.port)
  }

  predicate HeldByAnother(w: Work, n: Node)
    requires w.Sync?
  {
    exists tag :: tag in n.inbounds && tag != w.tag && n.inbounds[tag].port == w.port
  }

  /** Where nobody is found on the port, an undisturbed attempt confirms exactly when the tag is free or already carries
      the expected client, and otherwise clears the tag and asks for another attempt; where somebody is, were it the very
      inbound to be created, it clears the tag and asks for another attempt. */
  lemma CalmCreation(w: Work, n: Node)
    requires IsCreation(w) && w.port !in n.occupied
    ensures var (o, n') := Finish(w, Start(w), n, []);
            if Blocked(w, n) then o == RetryLater(Cause(PortUnavailable, false)) && n' == Drop(n, w.tag)
            else if w.tag !in n.inbounds || Carries(w, n) then o == Confirm(true, w.version) && n' == Ensured(w, n)
            else o == RetryLater(Cause(InboundAlreadyExists, false)) && n' == Drop(n, w.tag)
  {
    hide Finish, Step, Bound;
    Endings(w);
    DropSame(n, w.tag);
    UnsealedAndFenced(w, n);
    Advance(w, CreateUnseal, n, []);
    Advance(w, CreateFence, n, []);
    Advance(w, CreateCall, n, []);
    CalmCall(w, n);
    if Blocked(w, n) {
      CalmPortResidue(w, n);
    } else if w.tag in n.inbounds {
      CalmResidue(w, n);
    }
  }

  lemma UnsealedAndFenced(w: Work, n: Node)
    requires IsCreation(w)
    ensures Start(w) == CreateUnseal && Fits(w, CreateUnseal) && Fits(w, CreateFence) && Fits(w, CreateCall)
    ensures Step(w, CreateUnseal, n, CALM) == (CreateFence, n) && Step(w, CreateFence, n, CALM) == (CreateCall, n)
  {
    hide EmitDrift, EmitRotate, NextDrift, NextRotate;
  }

  lemma CalmCall(w: Work, n: Node)
    requires IsCreation(w) && w.port !in n.occupied
    ensures Step(w, CreateCall, n, CALM) ==
            if Blocked(w, n) then (ResidueFence(PortUnavailable), n)
            else if w.tag in n.inbounds then (ResidueFence(InboundAlreadyExists), n)
            else (End(Confirm(true, w.version)), Registered(w, n))
  {
    hide EmitDrift, EmitRotate, NextDrift, NextRotate, Bound;
  }

  /** An inbound that is up and carries its client, on its own port, is torn down by a creation that finds it there, and
      rebuilt by the next attempt: with a client that probes for ports, a creation over the expected client is confirmed
      at once exactly when the inbound is on another port. */
  lemma HealthyInboundIsTornDown(w: Work, n: Node)
    requires IsCreation(w) && w.port !in n.occupied && n.probes && !HeldByAnother(w, n) && Carries(w, n) && w.tag in n.inbounds
    ensures var (o, n') := Finish(w, Start(w), n, []);
            && (o.Confirm? <==> n.inbounds[w.tag].port != w.port)
            && (n.inbounds[w.tag].port == w.port ==> n' == Drop(n, w.tag))
  {
    hide Finish;
    CalmCreation(w, n);
  }

  // The steps over an existing tag, one by one.

  lemma ResidueFenceStep(w: Work, kind: ErrorKind, n: Node, c: Choice)
    requires w.Sync?
    ensures Step(w, ResidueFence(kind), n, c) == (if c.held then ResidueObserve(kind) else End(Abandon), n)
  {
    hide EmitDrift, EmitRotate, NextDrift, NextRotate;
  }

  lemma ResidueObserveStep(w: Work, kind: ErrorKind, n: Node, c: Choice)
    requires w.Sync?
    ensures Step(w, ResidueObserve(kind), n, c) ==
            (if c.fault.Clean? && w.tag in n.inbounds then if kind == PortUnavailable then CompensatePort else ResidueHealthy
             else if kind == PortUnavailable then End(RetryLater(Cause(kind, false)))
             else End(Retry(Cause(kind, false))), n)
  {
    hide EmitDrift, EmitRotate, NextDrift, NextRotate;
  }

  lemma ResidueHealthyStep(w: Work, n: Node, c: Choice)
    requires w.Sync?
    ensures Step(w, ResidueHealthy, n, c) ==
            (if c.fault.Clean? && Carries(w, n) then End(Confirm(true, w.version)) else CompensateResidue, n)
  {
    hide EmitDrift, EmitRotate, NextDrift, NextRotate;
  }

  lemma CompensateStep(w: Work, n: Node, c: Choice)
    requires w.Sync? && IsPanelNamespace(w.tag)
    ensures Step(w, CompensatePort, n, c).0 == End(RetryLater(Cause(PortUnavailable, false)))
    ensures Step(w, CompensateResidue, n, c).0 == End(RetryLater(Cause(InboundAlreadyExists, false)))
    ensures c.fault.Clean? && w.tag in n.inbounds ==>
              Step(w, CompensateResidue, n, c).1 == Drop(n, w.tag) && Step(w, CompensatePort, n, c).1 == Drop(n, w.tag)
  {
    hide EmitDrift, EmitRotate, NextDrift, NextRotate, Serve, Drop;
    if w.tag in n.inbounds { CleanRemoval(n, w.tag); }
  }

  lemma CleanRemoval(n: Node, tag: string)
    requires IsPanelNamespace(tag) && tag in n.inbounds
    ensures Serve(n, RemoveInbound(tag), Clean).0 == Drop(n, tag)
  {
  }

  lemma CalmPortResidue(w: Work, n: Node)
    requires IsCreation(w)
    ensures Finish(w, ResidueFence(PortUnavailable), n, []) == (RetryLater(Cause(PortUnavailable, false)), Drop(n, w.tag))
  {
    hide Finish, Step;
    var k := PortUnavailable;
    Endings(w);
    DropSame(n, w.tag);
    ResidueFenceStep(w, k, n, CALM);
    Advance(w, ResidueFence(k), n, []);
    ResidueObserveStep(w, k, n, CALM);
    Advance(w, ResidueObserve(k), n, []);
    CompensateStep(w, n, CALM);
    Advance(w, CompensatePort, n, []);
  }

  lemma CalmResidue(w: Work, n: Node)
    requires IsCreation(w) && w.tag in n.inbounds
    ensures Finish(w, ResidueFence(InboundAlreadyExists), n, []) ==
            if Carries(w, n) then (Confirm(true, w.version), n)
            else (RetryLater(Cause(InboundAlreadyExists, false)), Drop(n, w.tag))
  {
    hide Finish, Step, Drop, Carries;
    var k := InboundAlreadyExists;
    ResidueFenceStep(w, k, n, CALM);
    Advance(w, ResidueFence(k), n, []);
    ResidueObserveStep(w, k, n, CALM);
    Advance(w, ResidueObserve(k), n, []);
    CalmHealth(w, n);
  }

  lemma CalmHealth(w: Work, n: Node)
    requires IsCreation(w) && w.tag in n.inbounds
    ensures Finish(w, ResidueHealthy, n, []) ==
            if Carries(w, n) then (Confirm(true, w.version), n)
            else (RetryLater(Cause(InboundAlreadyExists, false)), Drop(n, w.tag))
  {
    hide Finish, Step, Drop;
    Endings(w);
    ResidueHealthyStep(w, n, CALM);
    Advance(w, ResidueHealthy, n, []);
    CompensateStep(w, n, CALM);
    Advance(w, CompensateResidue, n, []);
  }

  /** From any state of the tag, with the port free of others, at most two undisturbed attempts end in a confirmation
      with the expected client on it. */
  lemma CreateNeverSticks(w: Work, n: Node)
    requires IsCreation(w) && w.port !in n.occupied && (n.probes ==> !HeldByAnother(w, n))
    ensures var (o1, n1) := Finish(w, Start(w), n, []);
            var (o2, n2) := if o1.Confirm? then (o1, n1) else Finish(w, Start(w), n1, []);
            o2 == Confirm(true, w.version) && Carries(w, n2) && OthersSame(n, n2, w.tag)
  {
    hide Finish;
    CalmCreation(w, n);
    DropSame(n, w.tag);
    CalmCreation(w, Drop(n, w.tag));
    assert Registered(w, n).inbounds - {w.tag} == n.inbounds - {w.tag};
    assert Registered(w, Drop(n, w.tag)).inbounds - {w.tag} == n.inbounds - {w.tag};
  }

  /** Whatever fails, a confirmed creation carries the expected client if and only if the tag was free or already
      carried it: the read after an uncertain call looks at the tag alone. */
  lemma ConfirmedCreationCarries(w: Work, n: Node, script: seq<Choice>)
    requires IsCreation(w) && AllHonest(script)
    ensures var (o, n') := Finish(w, Start(w), n, script);
            o.Confirm? ==> (Carries(w, n') <==> w.tag !in n.inbounds || Carries(w, n))
  {
    ConfirmIsTruthful(w, n, script);
  }

  function Nth(script: seq<Choice>, i: nat): Choice { if i < |script| then script[i] else CALM }

  /** Creation is given up for good over an existing tag exactly when the node answered "already exists" - so the port was
      not found taken - and the listing meant to look at it was lost: that read's own, retryable failure is not the one
      reported. */
  lemma LostListingIsFatal(w: Work, n: Node, script: seq<Choice>)
    requires IsCreation(w) && AllHonest(script)
    ensures Finish(w, Start(w), n, script).0 == Retry(Cause(InboundAlreadyExists, false)) <==>
            && w.tag in n.inbounds && !Blocked(w, n)
            && Nth(script, 0).ok && Nth(script, 1).held && Nth(script, 2).fault.Clean?
            && Nth(script, 3).held && Nth(script, 4).fault.Broken?
    ensures IsPermanent(Retry(Cause(InboundAlreadyExists, false)), 0)
  {
    hide Finish, EmitDrift, EmitRotate, NextDrift, NextRotate;
    Endings(w);
    TailNth(script);
    TailNth(Tail(script));
    Advance(w, CreateUnseal, n, script);
    Advance(w, CreateFence, n, Tail(script));
    LostListing(w, n, Tail(Tail(script)));
  }

  /** It happens: the worker died between creating an inbound and confirming it, the retry is told that the tag exists,
      and the listing times out without an effect. */
  lemma LostListingHappens()
    ensures var w := Sync("xpanel-a", "xpanel-u", 20_000, true, Create, 1);
            var n := Node(map["xpanel-a" := Inbound(20_000, map["xpanel-u" := Version(1)])], {}, true, false);
            var lost := Choice(Broken(Cause(DeadlineExceeded, true), false), true, true);
            && IsCreation(w) && Carries(w, n)
            && Finish(w, Start(w), n, [CALM, CALM, CALM, CALM, lost]).0 == Retry(Cause(InboundAlreadyExists, false))
  {
    hide Finish;
    var w := Sync("xpanel-a", "xpanel-u", 20_000, true, Create, 1);
    var n := Node(map["xpanel-a" := Inbound(20_000, map["xpanel-u" := Version(1)])], {}, true, false);
    var lost := Choice(Broken(Cause(DeadlineExceeded, true), false), true, true);
    LostListingIsFatal(w, n, [CALM, CALM, CALM, CALM, lost]);
  }

  lemma TailNth(script: seq<Choice>)
    ensures Head(script) == Nth(script, 0)
    ensures forall i: nat :: Nth(Tail(script), i) == Nth(script, i + 1)
    ensures AllHonest(script) ==> AllHonest(Tail(script))
  {
  }

  lemma LostListing(w: Work, n: Node, script: seq<Choice>)
    requires IsCreation(w) && AllHonest(script)
    ensures Finish(w, CreateCall, n, script).0 == Retry(Cause(InboundAlreadyExists, false)) <==>
            w.tag in n.inbounds && !Blocked(w, n) && Nth(script, 0).fault.Clean? && Nth(script, 1).held && Nth(script, 2).fault.Broken?
  {
    hide Finish, Step;
    Endings(w);
    TailNth(script);
    Advance(w, CreateCall, n, script);
    var (pc', n') := Step(w, CreateCall, n, Head(script));
    CreateReply(w, n, Head(script));
    if pc'.UncertainFence? {
      UncertainReply(w, pc'.cause, n', Tail(script));
    } else if pc'.ResidueFence? {
      ResidueReply(w, pc'.kind, n', Tail(script));
    }
  }

  lemma CreateReply(w: Work, n: Node, c: Choice)
    requires IsCreation(w) && Honest(c)
    ensures var (pc', n') := Step(w, CreateCall, n, c);
            && (pc' == ResidueFence(InboundAlreadyExists) <==> w.tag in n.inbounds && !Blocked(w, n) && c.fault.Clean?)
            && (pc' == ResidueFence(InboundAlreadyExists) ==> n' == n)
            && (pc'.UncertainFence? ==> IsTransport(pc'.cause.kind))
            && (pc'.ResidueFence? ==> pc'.kind in {InboundAlreadyExists, PortUnavailable})
            && (pc'.ResidueFence? || pc'.UncertainFence? || (pc'.End? && pc' != End(Retry(Cause(InboundAlreadyExists, false)))))
  {
    hide EmitDrift, EmitRotate, NextDrift, NextRotate;
  }

  lemma UncertainReply(w: Work, cause: Cause, n: Node, script: seq<Choice>)
    requires IsCreation(w) && IsTransport(cause.kind)
    ensures Finish(w, UncertainFence(cause), n, script).0 != Retry(Cause(InboundAlreadyExists, false))
  {
    hide Finish, EmitDrift, EmitRotate, NextDrift, NextRotate;
    Endings(w);
    Advance(w, UncertainFence(cause), n, script);
    Advance(w, UncertainObserve(cause), n, Tail(script));
  }

  lemma ResidueReply(w: Work, kind: ErrorKind, n: Node, script: seq<Choice>)
    requires IsCreation(w) && kind in {InboundAlreadyExists, PortUnavailable}
    requires kind == InboundAlreadyExists ==> w.tag in n.inbounds
    ensures Finish(w, ResidueFence(kind), n, script).0 == Retry(Cause(InboundAlreadyExists, false)) <==>
            kind == InboundAlreadyExists && Nth(script, 0).held && Nth(script, 1).fault.Broken?
  {
    hide Finish, Step;
    Endings(w);
    TailNth(script);
    ResidueFenceStep(w, kind, n, Head(script));
    Advance(w, ResidueFence(kind), n, script);
    var rest := Tail(script);
    ResidueObserveStep(w, kind, n, Head(rest));
    Advance(w, ResidueObserve(kind), n, rest);
    CompensateStep(w, n, Head(Tail(rest)));
    Advance(w, CompensatePort, n, Tail(rest));
    HealthyReply(w, n, Tail(rest));
  }

  lemma HealthyReply(w: Work, n: Node, script: seq<Choice>)
    requires IsCreation(w)
    ensures !Finish(w, ResidueHealthy, n, script).0.Retry?
  {
    hide Finish, Step;
    Endings(w);
    ResidueHealthyStep(w, n, Head(script));
    Advance(w, ResidueHealthy, n, script);
    CompensateStep(w, n, Head(Tail(script)));
    Advance(w, CompensateResidue, n, Tail(script));
  }
}
