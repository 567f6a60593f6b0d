/** Failures that pass never end an operation, however often they come. */
module Endurance {
  import opened Domain
  import opened Xray
  import opened Synchronizer
  import opened Projection
  import opened Convergence
  import opened Outcomes
  import opened Intent
  import opened Store
  import opened Rows
  import opened Worker

  /** One turn on a user's last operation: the fates of its calls, the worker's options, the moment. */
  datatype Try = Try(script: seq<Choice>, options: Options, now: int)

  /** The attempt ends in a failure that passes, such as a deadline exceeded or an instance unavailable, or in one that is
      always put off. */
  predicate Endures(o: Outcome) { o.RetryLater? || (o.Retry? && Passing(o.cause)) }

  function Next(u: User, n: Node, t: Try): (User, Node)
    requires |u.account.intent.ops| > 0
  {
    var (b, n') := Handled(u, LastOp(u), n, t.script, t.options, t.now);
    (u.(account := u.account.(intent := b)), n')
  }

  function OutcomeOf(u: User, n: Node, t: Try): Outcome
    requires |u.account.intent.ops| > 0
  {
    var w := WorkOf(u, LastOp(u));
    Finish(w, Start(w), n, t.script).0
  }

  ghost predicate Current(u: User) {
    var a := u.account.intent;
    |a.ops| > 0 && a.ops[|a.ops| - 1].revision == a.desiredRevision
  }

  lemma EnduringStep(u: User, n: Node, t: Try)
    requires Current(u) && OptionsOk(t.options) && Endures(OutcomeOf(u, n, t))
    ensures var v := Next(u, n, t).0;
            var p, q := u.account.intent.ops[LastOp(u)], v.account.intent.ops;
            && Current(v) && |q| == |u.account.intent.ops|
            && q[|q| - 1] == p.(state := RetryWait, attempts := p.attempts + 1,
                                nextAttempt := t.now + Delay(p.attempts + 1, t.options.maxRetry), lease := None)
  {
    hide Finish, AfterOutcome, Delay;
    OutcomeIsRecorded(Taken(u.account.intent, LastOp(u), t.options, t.now), LastOp(u), OutcomeOf(u, n, t), t.options, t.now);
  }

  function After(u: User, n: Node, tries: seq<Try>): (User, Node)
    requires |u.account.intent.ops| > 0
    decreases |tries|
  {
    if tries == [] then (u, n)
    else
      var (v, m) := Next(u, n, tries[0]);
      if |v.account.intent.ops| == 0 then (v, m) else After(v, m, tries[1..])
  }

  /** Every one of the attempts, each made on what the one before left, endures. */
  ghost predicate AllEndure(u: User, n: Node, tries: seq<Try>)
    requires |u.account.intent.ops| > 0
    decreases |tries|
  {
    tries != [] ==>
      && OptionsOk(tries[0].options) && Endures(OutcomeOf(u, n, tries[0]))
      && var (v, m) := Next(u, n, tries[0]); |v.account.intent.ops| > 0 ==> AllEndure(v, m, tries[1..])
  }

  /** However many attempts end so, at whatever moments, on whatever node they find: the operation still waits for its next
      attempt, has counted every one of them, and is due after the delay for that many. */
  lemma {:induction false} NeverFailsForGood(u: User, n: Node, tries: seq<Try>)
    requires Current(u) && AllEndure(u, n, tries) && tries != []
    ensures var q, last := After(u, n, tries).0.account.intent.ops, tries[|tries| - 1];
            var attempts := u.account.intent.ops[LastOp(u)].attempts + |tries|;
            && |q| == |u.account.intent.ops|
            && q[|q| - 1] == u.account.intent.ops[LastOp(u)].(state := RetryWait, attempts := attempts,
                               nextAttempt := last.now + Delay(attempts, last.options.maxRetry), lease := None)
    decreases |tries|
  {
    hide Next, OutcomeOf, Delay;
    EnduringStep(u, n, tries[0]);
    var (v, m) := Next(u, n, tries[0]);
    if |tries| > 1 {
      NeverFailsForGood(v, m, tries[1..]);
    }
  }

  /** While nothing but passing failures occurs, leases hold and keys decrypt, an attempt confirms or endures, or a creation
      lost the listing after "already exists". */
  lemma PassingFailuresEndure(u: User, n: Node, t: Try)
    requires |u.account.intent.ops| > 0 && Proper(WorkOf(u, LastOp(u)))
    requires AllHonest(t.script) && AllPassing(t.script) && AllHeld(t.script) && AllOk(t.script)
    ensures var o := OutcomeOf(u, n, t); o.Confirm? || Endures(o) || o == Retry(Cause(InboundAlreadyExists, false))
  {
    hide Finish, Proper;
    var w := WorkOf(u, LastOp(u));
    var o := Finish(w, Start(w), n, t.script).0;
    EndingsHaveCauses(w, Start(w), n, t.script);
    if o.Retry? { PassingFailuresPass(w, n, t.script, o.cause); }
  }

  // ---- a rotation stopped halfway ----

  function LastOf(u: User): Op
    requires |u.account.intent.ops| > 0
  {
    u.account.intent.ops[|u.account.intent.ops| - 1]
  }

  /** The operation waits for another attempt, one more counted. */
  predicate Waits(u: User, v: User, t: Try)
    requires |u.account.intent.ops| > 0
  {
    && |v.account.intent.ops| == |u.account.intent.ops|
    && LastOf(v) == LastOf(u).(state := RetryWait, attempts := LastOf(u).attempts + 1,
                               nextAttempt := t.now + Delay(LastOf(u).attempts + 1, t.options.maxRetry), lease := None)
  }

  /** A record that a turn ends with: what it says of the outcome. */
  lemma TurnIsRecorded(u: User, n: Node, t: Try)
    requires Current(u) && OptionsOk(t.options)
    ensures var o, v := OutcomeOf(u, n, t), Next(u, n, t).0;
            && |v.account.intent.ops| == |u.account.intent.ops|
            && (LastOf(v).state == PermanentFailed <==> o.GiveUp? || (o.Retry? && Final(o.cause, LastOf(u).attempts)))
            && (o.RetryLater? || (o.Retry? && !Final(o.cause, LastOf(u).attempts)) ==> Waits(u, v, t))
  {
    hide Finish, AfterOutcome, Delay;
    OutcomeIsRecorded(Taken(u.account.intent, LastOp(u), t.options, t.now), LastOp(u), OutcomeOf(u, n, t), t.options, t.now);
  }

  predicate Rotates(u: User)
    requires |u.account.intent.ops| > 0
  {
    IsRotation(WorkOf(u, LastOp(u)))
  }

  /** A rotation fails for good exactly when a key does not decrypt, or the listing, the transition client or the removal of
      the old credential is refused for a reason that is final. Whatever is refused after that, it waits for another try. */
  lemma RotationFailsExactlyWhen(u: User, n: Node, t: Try)
    requires Current(u) && OptionsOk(t.options) && Rotates(u) && u.tag in n.inbounds && AllHonest(t.script)
    ensures var w, o, v := WorkOf(u, LastOp(u)), OutcomeOf(u, n, t), Next(u, n, t).0;
            var refusal := Refusal(w, n, t.script);
            && |v.account.intent.ops| == |u.account.intent.ops|
            && (LastOf(v).state == PermanentFailed <==>
                  o.GiveUp? || (refusal.Some? && Final(refusal.value, LastOf(u).attempts)))
            && (refusal.None? && !o.Confirm? && !o.Abandon? && !o.GiveUp? ==> Waits(u, v, t))
  {
    hide Finish, Next, Refusal, Final, Delay;
    var w, o := WorkOf(u, LastOp(u)), OutcomeOf(u, n, t);
    TurnIsRecorded(u, n, t);
    if o.Retry? { RetriesForItsRefusal(w, n, t.script, o.cause); }
    var refusal := Refusal(w, n, t.script);
    if refusal.Some? { RetriesForItsRefusal(w, n, t.script, refusal.value); }
  }

  /** Nothing is carried out that the node refuses for good. */
  predicate RefusalsStand(script: seq<Choice>) {
    forall i :: 0 <= i < |script| && script[i].fault.Broken? && script[i].fault.applied ==> Passing(script[i].fault.cause)
  }

  /** So, of a rotation that found the old credential in place: if it stops with the old credential gone, or with the new one
      added and the transition client still there, it is tried again, whatever was refused. */
  lemma StoppedHalfwayIsResumed(u: User, n: Node, t: Try)
    requires Current(u) && OptionsOk(t.options) && Rotates(u) && u.tag in n.inbounds && AllHonest(t.script) && RefusalsStand(t.script)
    requires var clients := n.inbounds[u.tag].clients;
             u.identity in clients && clients[u.identity] != Version(u.account.intent.desiredVersion)
    ensures var o, (v, n') := OutcomeOf(u, n, t), Next(u, n, t);
            var clients := ClientsOf(n', u.tag);
            !o.Confirm? && !o.Abandon? && !o.GiveUp? &&
            (u.identity !in clients ||
             (clients[u.identity] == Version(u.account.intent.desiredVersion) && RotationSafetyId(u.identity) in clients)) ==>
              Waits(u, v, t)
  {
    hide Finish, Refusal, Delay, OldRefused, Placed;
    var w, o := WorkOf(u, LastOp(u)), OutcomeOf(u, n, t);
    TurnIsRecorded(u, n, t);
    if o.Retry? {
      RotationRetriesExactlyWhen(w, n, t.script, o.cause);
      WhatRetryLeft(w, n, Finish(w, Start(w), n, t.script).1, OldRefusedButGone(w, n, t.script, o.cause));
      if OldRefusedButGone(w, n, t.script, o.cause) { AppliedPasses(w, n, t.script, o.cause); }
    }
  }

  lemma WhatRetryLeft(w: Work, n: Node, n': Node, gone: bool)
    requires Leaves(w, n, n', gone) && w.expected in n.inbounds[w.tag].clients
    ensures gone ==> w.expected !in n'.inbounds[w.tag].clients
    ensures !gone ==> w.expected in n'.inbounds[w.tag].clients &&
                      n'.inbounds[w.tag].clients[w.expected] == n.inbounds[w.tag].clients[w.expected]
  {
    var before, after := n.inbounds[w.tag].clients - {Safety(w)}, n'.inbounds[w.tag].clients - {Safety(w)};
    assert w.expected in before && before[w.expected] == n.inbounds[w.tag].clients[w.expected];
    if gone {
      assert w.expected !in n.inbounds[w.tag].clients - {Safety(w), w.expected};
      assert w.expected in n'.inbounds[w.tag].clients ==> w.expected in after;
    } else {
      assert w.expected in after && after[w.expected] == before[w.expected];
    }
  }

  lemma AppliedPasses(w: Work, n: Node, script: seq<Choice>, c: Cause)
    requires OldRefusedButGone(w, n, script, c) && RefusalsStand(script)
    ensures Passing(c)
  {
  }

  /** Both hypotheses are needed. A rotation resumed halfway, with the transition client alone on the inbound, fails for good
      if the node will not list it: the user stays without a key. */
  lemma ResumedAndFrozen(u: User, n: Node, t: Try, c: Cause)
    requires Current(u) && OptionsOk(t.options) && Rotates(u) && u.tag in n.inbounds && !c.retryable && IsTransport(c.kind)
    requires t.script == [CALM, Choice(Broken(c, false), true, true)]
    requires n.inbounds[u.tag].clients.Keys == {RotationSafetyId(u.identity)}
    ensures var (v, n') := Next(u, n, t);
            |v.account.intent.ops| > 0 && LastOf(v).state == PermanentFailed && u.identity !in ClientsOf(n', u.tag)
  {
    hide Finish, Next, Delay;
    var w := WorkOf(u, LastOp(u));
    RotationFailsExactlyWhen(u, n, t);
    HalfwayExactlyWhen(w, n, t.script, c);
    NextNode(u, n, t);
  }

  /** And the twentieth internal failure freezes a rotation whose removal of the old credential was carried out. */
  lemma TwentiethAndFrozen(u: User, n: Node, t: Try)
    requires Current(u) && OptionsOk(t.options) && Rotates(u) && u.tag in n.inbounds && LastOf(u).attempts >= 19
    requires t.script == [CALM, CALM, CALM, Choice(Broken(Cause(Internal, true), true), true, true)]
    requires n.inbounds[u.tag].clients.Keys == {u.identity, RotationSafetyId(u.identity)}
    ensures var (v, n') := Next(u, n, t);
            |v.account.intent.ops| > 0 && LastOf(v).state == PermanentFailed && u.identity !in ClientsOf(n', u.tag)
  {
    hide Finish, Next, Delay;
    var w, c := WorkOf(u, LastOp(u)), Cause(Internal, true);
    assert t.script[3].fault == Broken(c, true);
    RotationFailsExactlyWhen(u, n, t);
    HalfwayExactlyWhen(w, n, t.script, c);
    NextNode(u, n, t);
  }

  lemma NextNode(u: User, n: Node, t: Try)
    requires |u.account.intent.ops| > 0
    ensures var w := WorkOf(u, LastOp(u)); Next(u, n, t).1 == Finish(w, Start(w), n, t.script).1
  {
    hide Finish;
  }
}
