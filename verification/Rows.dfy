/** What an attempt does to its row and to the node, said of the row, the node and the fates of the calls alone. */
module Rows {
  import opened Domain
  import opened Backoff
  import opened Xray
  import opened Synchronizer
  import opened Projection
  import opened Outcomes
  import opened Intent
  import opened Store
  import opened Drift

  // ---- what is final, and how long the rest waits ----

  /** A cause that ends a record for good: nothing will change it, or it is the twentieth internal failure. */
  predicate Final(c: Cause, attempts: nat) { !c.retryable || (c.kind == Internal && attempts + 1 >= 20) }

  /** In milliseconds: doubling from a second, up to the ceiling. */
  function Delay(attempts: nat, ceiling: int): (d: int)
    ensures ceiling >= 1 ==> 1 <= d <= ceiling
  {
    if 1000 * Power2(attempts) < ceiling then 1000 * Power2(attempts) else ceiling
  }

  lemma WaitIsDelay(attempts: nat, ceiling: int)
    requires ceiling >= 1
    ensures WaitMillis(attempts, ceiling) == Delay(attempts, ceiling)
  {
    hide Power2;
    assert 1000 * Power2(attempts) * MILLISECOND == Power2(attempts) * SECOND;
    assert (1000 * Power2(attempts) * MILLISECOND) / MILLISECOND == 1000 * Power2(attempts);
    assert (ceiling * MILLISECOND) / MILLISECOND == ceiling;
  }

  /** The waits are 1, 2, 4, ... seconds. */
  lemma DelaysDouble(attempts: nat, ceiling: int)
    requires ceiling >= 1
    ensures Delay(0, ceiling) == if 1000 < ceiling then 1000 else ceiling
    ensures Delay(attempts + 1, ceiling) == if 2 * Delay(attempts, ceiling) < ceiling then 2 * Delay(attempts, ceiling) else ceiling
  {
  }

  // ---- an operation ----

  /** Attempts one higher, due again after the delay, and the user still waiting. */
  predicate PutOff(a: Allocation, b: Allocation, k: nat, ceiling: int, now: int)
    requires IsOp(a, k) && IsOp(b, k)
  {
    var p := a.ops[k];
    && b.ops[k] == p.(state := RetryWait, attempts := p.attempts + 1, nextAttempt := now + Delay(p.attempts + 1, ceiling), lease := None)
    && b == a.(ops := b.ops, projection := Awaiting)
  }

  predicate Failed(a: Allocation, b: Allocation, k: nat)
    requires IsOp(a, k) && IsOp(b, k)
  {
    b.ops[k] == a.ops[k].(state := PermanentFailed, lease := None) && b == a.(ops := b.ops, projection := Error)
  }

  /** What becomes of an operation held under the current intent. */
  predicate Recorded(a: Allocation, b: Allocation, k: nat, o: Outcome, ceiling: int, now: int)
    requires IsOp(a, k)
  {
    && |b.ops| == |a.ops| && (forall i :: 0 <= i < |a.ops| && i != k ==> b.ops[i] == a.ops[i])
    && match o
       case Confirm(present, _) =>
         && b.ops[k].state == Succeeded && b.syncedRevision == a.ops[k].revision
         && b.projection == (if present then Present else Absent) && b.observed == Some(present)
       case Retry(c) => if Final(c, a.ops[k].attempts) then Failed(a, b, k) else PutOff(a, b, k, ceiling, now)
       case RetryLater(_) => PutOff(a, b, k, ceiling, now)
       case GiveUp(_) => Failed(a, b, k)
       case Abandon => b == a
  }

  /** The work is that of the operation, with the user's rows as they are. */
  predicate Loads(w: Work, u: User, k: nat)
    requires IsOp(u.account.intent, k)
  {
    var a := u.account.intent;
    && w.Sync? && w.tag == u.tag && w.expected == u.identity && w.port == a.inbound.port
    && w.presence == a.ops[k].presence && w.reason == a.ops[k].reason && w.version == a.desiredVersion
  }

  /** Whatever failed on the way, no other inbound was touched, and what is confirmed is there. */
  predicate Projected(w: Work, n: Node, n': Node, o: Outcome)
    requires w.Sync?
  {
    OthersSame(n, n', w.tag) && (o.Confirm? ==> o.present == w.presence && (w.tag in n'.inbounds <==> w.presence))
  }

  /** An attempt on an operation that is held under the current intent: what the row and the node become. */
  ghost predicate Carried(u: User, v: User, k: nat, n: Node, n': Node, script: seq<Choice>, ceiling: int, now: int)
    requires IsOp(u.account.intent, k)
  {
    forall w :: Loads(w, u, k) ==>
      var (o, m) := Finish(w, Start(w), n, script);
      && n' == m && Recorded(u.account.intent, v.account.intent, k, o, ceiling, now)
      && (Proper(w) && AllHonest(script) ==> Projected(w, n, n', o))
  }

  lemma ProjectedAnyway(w: Work, n: Node, script: seq<Choice>)
    requires w.Sync? && Proper(w) && AllHonest(script)
    ensures var (o, n') := Finish(w, Start(w), n, script); Projected(w, n, n', o)
  {
    hide Finish;
    ConfirmIsTruthful(w, n, script);
    ConfirmsAsAsked(w, n, script);
  }

  // ---- the removal of something unknown ----

  /** A removal taken over from another worker, of something a listing shows to be gone. */
  predicate AlreadyGone(r: Removal, n: Node) {
    r.state == OpState.Leased &&
    if r.whole then r.tag !in n.inbounds
    else if r.tag in n.inbounds then r.identity !in n.inbounds[r.tag].clients
    else !n.strict
  }

  /** A removal that nothing forbids: in the namespace, and for a client, from an inbound whose owner is known and which
      keeps a client of that owner. */
  predicate Removable(r: Removal, owner: string, n: Node) {
    IsPanelNamespace(r.tag) &&
    (r.whole || (owner != "" && (r.tag in n.inbounds && r.identity in n.inbounds[r.tag].clients ==>
                                   Kept(n.inbounds[r.tag].clients, r.identity, owner))))
  }

  /** The node without exactly the target. */
  function Without(r: Removal, n: Node): Node {
    if r.whole then Drop(n, r.tag)
    else if r.tag in n.inbounds then Put(n, r.tag, n.inbounds[r.tag].(clients := n.inbounds[r.tag].clients - {r.identity}))
    else n
  }

  /** Undisturbed, a removal succeeds exactly if the target is gone already or may go, and takes exactly the target. */
  predicate CleanedCalmly(r: Removal, s: Removal, owner: string, n: Node, n': Node) {
    && (s.state == Succeeded <==> AlreadyGone(r, n) || Removable(r, owner, n))
    && (s.state != Succeeded ==> s.state == PermanentFailed && n'.inbounds == n.inbounds)
    && (s.state == Succeeded ==> n'.inbounds == Without(r, n).inbounds)
  }

  /** Whatever fails, nothing but the target can go: no other inbound, no port, no other client, and for a client no inbound. */
  predicate Spared(r: Removal, n: Node, n': Node) {
    && OthersSame(n, n', r.tag)
    && (r.whole ==> n'.inbounds == n.inbounds || n'.inbounds == n.inbounds - {r.tag})
    && (!r.whole ==>
          && (r.tag in n'.inbounds <==> r.tag in n.inbounds)
          && (r.tag in n.inbounds ==>
                && n'.inbounds[r.tag].port == n.inbounds[r.tag].port
                && n'.inbounds[r.tag].clients in {n.inbounds[r.tag].clients, n.inbounds[r.tag].clients - {r.identity}}))
  }

  /** What is recorded as removed is gone. */
  predicate GoneFor(r: Removal, n: Node) {
    if r.whole then r.tag !in n.inbounds else r.tag in n.inbounds ==> r.identity !in n.inbounds[r.tag].clients
  }

  /** The work is that of the removal: it looks first if it takes over somebody's lease. */
  predicate Asks(w: Work, r: Removal, owner: string) {
    w.Drift? && w.tag == r.tag && w.whole == r.whole && w.target == r.identity && w.expected == owner &&
    (w.reclaimed <==> r.state == OpState.Leased)
  }

  /** What becomes of a removal, held or taken over, and of the node. */
  ghost predicate Cleaned(r: Removal, s: Removal, owner: string, n: Node, n': Node, script: seq<Choice>, ceiling: int, now: int) {
    && s == r.(state := s.state, attempts := s.attempts, nextAttempt := s.nextAttempt, lease := s.lease)
    && (script == [] ==> CleanedCalmly(r, s, owner, n, n'))
    && (AllHonest(script) ==> Spared(r, n, n') && (s.state == Succeeded ==> GoneFor(r, n')))
    && (forall w :: Asks(w, r, owner) ==> CleaningRecorded(r, s, Finish(w, Start(w), n, script).0, ceiling, now))
  }

  predicate CleaningRecorded(r: Removal, s: Removal, o: Outcome, ceiling: int, now: int) {
    match o
    case Confirm(_, _) => s == r.(state := Succeeded, lease := None)
    case Retry(c) =>
      if Final(c, r.attempts) then s == r.(state := PermanentFailed, lease := None)
      else s == r.(state := RetryWait, attempts := r.attempts + 1, nextAttempt := now + Delay(r.attempts + 1, ceiling), lease := None)
    case _ => s == r.(state := OpState.Leased, lease := s.lease)
  }

  /** A removal run from its row: what it does to the node, whatever comes of it. */
  lemma RemovalSpares(w: Work, r: Removal, owner: string, n: Node, script: seq<Choice>)
    requires Asks(w, r, owner) && AllHonest(script)
    ensures var (o, n') := Finish(w, Start(w), n, script);
            Spared(r, n, n') && (o.Confirm? ==> GoneFor(r, n'))
  {
    hide Finish, At;
    var pc := Start(w);
    AtStart(w, n, pc);
    FinishKeeps(w, n, pc, n, script);
    var (o, n') := Finish(w, pc, n, script);
    var end := End(o);
    FramedOthers(w, n, end, n');
    DriftLeaves(w, r, owner, n, end, n');
  }

  lemma DriftLeaves(w: Work, r: Removal, owner: string, n: Node, end: Pc, n': Node)
    requires Asks(w, r, owner)
    requires At(w, n, end, n') && end.End? && OthersSame(n, n', w.tag)
    ensures Spared(r, n, n') && (end.outcome.Confirm? ==> GoneFor(r, n'))
  {
    hide AtCreate, AtRemove, AtPort, AtRotate, AtLostRotate, OthersSame;
    if !w.whole && w.tag in n.inbounds {
      var clients := n.inbounds[w.tag].clients;
      assert (clients - {w.target}) - {w.target} == clients - {w.target};
    }
  }

  lemma RemovalCalmly(w: Work, r: Removal, owner: string, n: Node)
    requires Asks(w, r, owner)
    ensures var (o, n') := Finish(w, Start(w), n, []);
            && (o.Confirm? <==> AlreadyGone(r, n) || Removable(r, owner, n))
            && (!o.Confirm? ==> o.Retry? && !o.cause.retryable && n'.inbounds == n.inbounds)
            && (o.Confirm? ==> n'.inbounds == Without(r, n).inbounds)
  {
    hide Finish, Kept, Spared, At, GoneFor;
    var pc := Start(w);
    var (o, n') := Finish(w, pc, n, []);
    CalmEnding(w, r, owner, n);
    RemovalSpares(w, r, owner, n, []);
    if o.Confirm? {
      ExactlyWithout(r, n, n');
    } else {
      AtStart(w, n, pc);
      FinishKeeps(w, n, pc, n, []);
      var end := End(o);
      ObjectionStays(w, n, end, n');
    }
  }

  lemma CalmEnding(w: Work, r: Removal, owner: string, n: Node)
    requires Asks(w, r, owner)
    ensures var o := Finish(w, Start(w), n, []).0;
            if AlreadyGone(r, n) || Removable(r, owner, n) then o.Confirm?
            else Objection(w, n).Some? && o == Retry(Cause(Objection(w, n).value, false))
  {
    hide Finish, Kept;
    var c := if Objection(w, n).Some? then Cause(Objection(w, n).value, false) else Cause(Internal, false);
    DriftEndsExactlyWhen(w, n, [], c);
  }

  lemma ExactlyWithout(r: Removal, n: Node, n': Node)
    requires Spared(r, n, n') && GoneFor(r, n')
    ensures n'.inbounds == Without(r, n).inbounds
  {
    if r.whole {
      assert r.tag !in n.inbounds ==> n.inbounds - {r.tag} == n.inbounds;
    } else if r.tag in n.inbounds {
      var clients := n'.inbounds[r.tag].clients;
      assert clients - {r.identity} == clients;
      SameElsewhere(n, n', r.tag, n'.inbounds[r.tag]);
    } else {
      assert n.inbounds - {r.tag} == n.inbounds && n'.inbounds - {r.tag} == n'.inbounds;
    }
  }

  lemma ObjectionStays(w: Work, n: Node, end: Pc, n': Node)
    requires w.Drift? && At(w, n, end, n') && end.End? && Objection(w, n).Some?
    ensures n' == n
  {
    hide AtCreate, AtRemove, AtPort, AtRotate, AtLostRotate;
    if w.tag in n.inbounds { KeptIsSurvivor(n.inbounds[w.tag].clients, w.target, w.expected); }
  }
}
