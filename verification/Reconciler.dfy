/** Comparing what the database wants with what the node has, and queueing what puts it right. */
module Reconciler {
  import opened Domain
  import opened Xray
  import opened Intent
  import opened Quota
  import opened Metering
  import opened Capability
  import opened Store
  import opened Drift

  /** Templates whose users are looked after: known, not archived, not found incompatible. */
  predicate Reconcilable(templates: seq<Template>, t: nat) {
    t < |templates| && !templates[t].archived && templates[t].state != Incompatible
  }

  predicate Listens(n: Node, u: User) { IsPanelNamespace(u.tag) && u.tag in n.inbounds }

  /** Listening means the inbound is there and carries the user's own client. */
  predicate Serves(n: Node, u: User) { Listens(n, u) && u.identity in n.inbounds[u.tag].clients }

  predicate Wants(u: User) { u.account.intent.Desired() }

  /** Every inbound that should listen is gone, though at least one of them was last seen listening. */
  predicate Vanished(users: seq<User>, n: Node) {
    && (exists i :: 0 <= i < |users| && Wants(users[i]))
    && (forall i :: 0 <= i < |users| && Wants(users[i]) ==> !Listens(n, users[i]))
    && (exists i :: 0 <= i < |users| && Wants(users[i]) && users[i].account.intent.inbound.observed == Some(true))
  }

  /** What one round does to one user's row. */
  function Reconciled(u: User, looked: bool, n: Node, now: int): Allocation {
    var a := u.account.intent;
    if !looked then a
    else
      var seen := Observe(a, Serves(n, u));
      if a.PendingSync() || Serves(n, u) == a.Desired() || a.HasOpenOperation() then seen
      else match EnqueueReconcile(seen, Intent.Look(a), now)
        case None => seen
        case Some(b) => b
  }

  /** A round looks after the users of a template that is there, not archived and not incompatible. */
  predicate LooksAfter(templates: seq<Template>, u: User) {
    u.template < |templates| && !templates[u.template].archived && templates[u.template].state != Incompatible
  }

  /** The user's own client is on the user's own inbound. */
  predicate IsServed(u: User, n: Node) {
    IsPanelNamespace(u.tag) && u.tag in n.inbounds && u.identity in n.inbounds[u.tag].clients
  }

  /** A settled user gets one operation, for what the facts want and at the desired version, exactly when it is served and
      should not be, or should be and is not. */
  predicate Righted(a: Allocation, b: Allocation, served: bool, now: int) {
    var wanted := a.lifecycle == Active && a.adminEnabled && a.quota == WithinLimit;
    if (served && !wanted) || (wanted && !served) then
      && |b.ops| == |a.ops| + 1 && b.ops[..|a.ops|] == a.ops
      && b.ops[|a.ops|] == Op(a.desiredRevision + 1, wanted, Some(a.desiredVersion), Reason.Reconcile, Pending, 0, now, now, None)
      && b.desiredRevision == a.desiredRevision + 1 && b.PendingSync()
    else
      b.ops == a.ops && b.desiredRevision == a.desiredRevision && b.projection == (if served then Present else Absent)
  }

  /** What a round makes of a user's rows, said of the rows and the node alone. */
  ghost predicate Corrected(u: User, v: User, looked: bool, n: Node, now: int) {
    var a, b := u.account.intent, v.account.intent;
    && v == u.(account := u.account.(intent := b))
    && (!looked ==> b == a)
    && (looked ==>
          && b.observed == Some(IsServed(u, n))
          && b.inbound.observed == (if a.inbound.released then a.inbound.observed else Some(IsServed(u, n)))
          && (a.PendingSync() ==>
                && b.ops == a.ops && b.desiredRevision == a.desiredRevision
                && (a.desiredRevision != a.syncedRevision ==> b.projection == a.projection))
          && (Inv(a) && !a.PendingSync() ==> Righted(a, b, IsServed(u, n), now)))
  }

  lemma ReconciledIsCorrected(u: User, v: User, looked: bool, n: Node, now: int)
    requires v == u.(account := u.account.(intent := Reconciled(u, looked, n, now)))
    ensures Corrected(u, v, looked, n, now)
  {
    hide Inv, Righted, EnqueueReconcile;
    var a, served := u.account.intent, IsServed(u, n);
    if looked {
      ReconciledKeepsObservation(u, n, now);
      if Inv(a) && !a.PendingSync() { SettledIsRighted(u, n, now); }
    }
  }

  lemma ReconciledKeepsObservation(u: User, n: Node, now: int)
    ensures var a, b := u.account.intent, Reconciled(u, true, n, now);
            && b.observed == Some(IsServed(u, n))
            && b.inbound.observed == (if a.inbound.released then a.inbound.observed else Some(IsServed(u, n)))
  {
    hide SupersedeOlder;
  }

  lemma SettledIsRighted(u: User, n: Node, now: int)
    requires Inv(u.account.intent) && !u.account.intent.PendingSync()
    ensures Righted(u.account.intent, Reconciled(u, true, n, now), IsServed(u, n), now)
  {
    hide CredentialsOk, IntentOk;
    var a, served := u.account.intent, IsServed(u, n);
    var seen := Observe(a, served);
    assert Serves(n, u) == served;
    AllClosed(a);
    if served != a.Desired() {
      var op := NewOp(a.desiredRevision + 1, a.Desired(), Some(a.desiredVersion), Reason.Reconcile, now);
      assert SupersedeOlder(a.ops, op.revision) == a.ops;
      var b := EnqueueReconcile(seen, Intent.Look(a), now);
      assert b.Some? && b.value.ops == a.ops + [op];
    }
  }

  lemma AllClosed(a: Allocation)
    requires Inv(a) && !a.PendingSync()
    ensures forall i :: 0 <= i < |a.ops| ==> IsClosed(a.ops[i].state) && a.ops[i].revision <= a.desiredRevision
    ensures !a.HasOpenOperation() && a.desiredRevision == a.syncedRevision
  {
    hide CredentialsOk, IntentOk;
  }

  /** Clients a user's inbound should not have. A transition client is excused while its rotation is open. */
  predicate Intrudes(u: User, id: string) {
    id != u.identity && !(u.account.intent.HasOpenRotation() && id == RotationSafetyId(u.identity))
  }

  predicate IsOrphan(users: seq<User>, n: Node, tag: string) {
    tag in n.inbounds && IsPanelNamespace(tag) && forall i :: 0 <= i < |users| ==> users[i].tag != tag
  }

  /** The first template that is not archived: where orphans are kept. */
  function AnyTemplate(templates: seq<Template>, from: nat): Option<nat>
    requires from <= |templates|
    decreases |templates| - from
  {
    if from == |templates| then None
    else if !templates[from].archived then Some(from)
    else AnyTemplate(templates, from + 1)
  }

  predicate IsIntruder(u: User, n: Node, r: Removal) {
    u.tag == r.tag && r.template == Some(u.template) && Listens(n, u) && r.identity in n.inbounds[u.tag].clients && Intrudes(u, r.identity)
  }

  /** A removal the round had reason to queue: an orphan, an intruder, or a failed removal whose inbound is gone. */
  ghost predicate Warranted(users: seq<User>, templates: seq<Template>, earlier: seq<Removal>, n: Node, r: Removal) {
    || (r.whole && r.identity == r.tag && r.template == AnyTemplate(templates, 0) && IsOrphan(users, n, r.tag))
    || (!r.whole && exists i :: 0 <= i < |users| && IsIntruder(users[i], n, r))
    || (!(IsPanelNamespace(r.tag) && r.tag in n.inbounds) &&
        exists k :: 0 <= k < |earlier| && IsFailed(earlier[k]) && earlier[k].tag == r.tag && earlier[k].whole == r.whole &&
                    HasKey(earlier[k], r.template, r.identity))
  }

  /** How the removal queue may change in a round. */
  ghost predicate Grown(users: seq<User>, templates: seq<Template>, earlier: seq<Removal>, n: Node, rows: seq<Removal>) {
    && |earlier| <= |rows| && QueueOk(rows)
    && (forall k :: 0 <= k < |earlier| ==>
          rows[k] == earlier[k] ||
          (rows[k].supersededBy.Some? && rows[k].supersededBy.value >= |earlier| && rows[k].(supersededBy := None) == earlier[k]))
    && (forall t, id :: HasOpen(earlier, t, id) ==> HasOpen(rows, t, id))
    && (forall k :: |earlier| <= k < |rows| ==> rows[k].state == Pending && Warranted(users, templates, earlier, n, rows[k]))
  }

  lemma EnqueueShape(rows: seq<Removal>, template: Option<nat>, tag: string, whole: bool, identity: string, now: int)
    ensures var r := Enqueue(rows, template, tag, whole, identity, now);
            && |rows| <= |r| <= |rows| + 1
            && (|r| > |rows| ==> r[|rows|] == NewRemoval(template, tag, whole, identity, now))
            && (forall k :: 0 <= k < |rows| ==>
                  r[k] == rows[k] || (rows[k].supersededBy.None? && IsFailed(rows[k]) && r[k] == rows[k].(supersededBy := Some(|rows|))))
  {
    hide HasOpen;
  }

  lemma EnqueueGrows(users: seq<User>, templates: seq<Template>, earlier: seq<Removal>, n: Node, rows: seq<Removal>,
                     template: Option<nat>, tag: string, whole: bool, identity: string, now: int)
    requires Grown(users, templates, earlier, n, rows)
    requires Warranted(users, templates, earlier, n, NewRemoval(template, tag, whole, identity, now))
    ensures Grown(users, templates, earlier, n, Enqueue(rows, template, tag, whole, identity, now))
  {
    hide QueueOk, HasOpen, Warranted, Enqueue;
    EnqueueKeepsQueue(rows, template, tag, whole, identity, now);
    EnqueueShape(rows, template, tag, whole, identity, now);
    var r := Enqueue(rows, template, tag, whole, identity, now);
    forall k | |earlier| <= k < |r| ensures Warranted(users, templates, earlier, n, r[k]) {
      if k < |rows| { SameWarrant(users, templates, earlier, n, rows[k], r[k]); }
    }
  }

  lemma SameWarrant(users: seq<User>, templates: seq<Template>, earlier: seq<Removal>, n: Node, r: Removal, s: Removal)
    requires Warranted(users, templates, earlier, n, r)
    requires r.tag == s.tag && r.template == s.template && r.whole == s.whole && r.identity == s.identity
    ensures Warranted(users, templates, earlier, n, s)
  {
    if i: nat :| i < |users| && IsIntruder(users[i], n, r) { assert IsIntruder(users[i], n, s); }
  }

  lemma IsWarranted(users: seq<User>, templates: seq<Template>, earlier: seq<Removal>, n: Node, rows: seq<Removal>, k: nat, now: int)
    requires Grown(users, templates, earlier, n, rows) && k < |rows| && Requeues(templates, n, rows[k])
    ensures var r := rows[k]; Warranted(users, templates, earlier, n, NewRemoval(r.template, r.tag, r.whole, r.identity, now))
  {
    var r := rows[k];
    if k < |earlier| { assert HasKey(earlier[k], r.template, r.identity); }
  }

  /** A failure of before that is no longer there to be taken up has been. */
  lemma TakenUp(users: seq<User>, templates: seq<Template>, earlier: seq<Removal>, n: Node, rows: seq<Removal>, k: nat)
    requires Grown(users, templates, earlier, n, rows) && k < |earlier| && Requeues(templates, n, earlier[k])
    ensures Requeues(templates, n, rows[k]) || HasOpen(rows, earlier[k].template, earlier[k].identity)
    ensures rows[k].template == earlier[k].template && rows[k].identity == earlier[k].identity
  {
    if rows[k] != earlier[k] {
      var j := rows[k].supersededBy.value;
      assert IsOpen(rows[j]) && HasKey(rows[j], earlier[k].template, earlier[k].identity);
    }
  }

  lemma AllTakenUp(users: seq<User>, templates: seq<Template>, earlier: seq<Removal>, n: Node, rows: seq<Removal>)
    requires Grown(users, templates, earlier, n, rows)
    ensures |earlier| <= |rows|
    ensures forall k :: 0 <= k < |earlier| && Requeues(templates, n, earlier[k]) ==>
              && (Requeues(templates, n, rows[k]) || HasOpen(rows, earlier[k].template, earlier[k].identity))
              && rows[k].template == earlier[k].template && rows[k].identity == earlier[k].identity
  {
    assert |earlier| <= |rows|;
    hide Grown, HasOpen, Requeues;
    forall k: nat | k < |earlier| && Requeues(templates, n, earlier[k])
      ensures Requeues(templates, n, rows[k]) || HasOpen(rows, earlier[k].template, earlier[k].identity)
      ensures rows[k].template == earlier[k].template && rows[k].identity == earlier[k].identity
    {
      TakenUp(users, templates, earlier, n, rows, k);
    }
  }

  /** A failure nobody has taken up, whose inbound is gone. */
  predicate Requeues(templates: seq<Template>, n: Node, r: Removal) {
    && IsFailed(r) && !(IsPanelNamespace(r.tag) && r.tag in n.inbounds)
    && (r.template.Some? ==> r.template.value < |templates| && !templates[r.template.value].archived)
  }

  // ---- the round ----

  /** What a round does to the capability gate before it looks at any user. */
  function GateAfter(r: Registry, probe: Signal, suspected: bool): Registry {
    var advanced := Advance(r, probe.(suspected := suspected));
    Invalidate(MarkHealthy(advanced, if probe.known then Some(WholeSeconds(probe.boot)) else None), advanced.generation)
  }

  /** Orphans are kept under the first template that is not archived. */
  lemma {:induction false} HomeOfOrphans(templates: seq<Template>, from: nat)
    requires from <= |templates|
    ensures match AnyTemplate(templates, from)
            case None => forall t :: from <= t < |templates| ==> templates[t].archived
            case Some(home) => from <= home < |templates| && !templates[home].archived && forall t :: from <= t < home ==> templates[t].archived
    decreases |templates| - from
  {
    if from < |templates| && templates[from].archived { HomeOfOrphans(templates, from + 1); }
  }

  /** A round without suspicion moves the generation exactly when the probe shows another process, by its epoch or its uptime. */
  lemma CalmRoundMovesExactlyWhen(r: Registry, probe: Signal)
    requires r.anchor.Some?
    ensures var g := GateAfter(r, probe, false);
            var other := probe.known && (probe.boot > r.anchor.value + 1000 || probe.boot < r.anchor.value - 1000 ||
                                         (r.uptime > 0 && probe.uptime < r.uptime));
            g.generation == (if other then r.generation + 1 else r.generation)
  {
  }

  /** No template has evidence of a generation still to come. */
  ghost predicate EvidenceOk(r: Registry) {
    r.generation >= 0 &&
    forall t :: 0 <= t < |r.templates| && r.templates[t].validated.Some? ==> r.templates[t].validated.value <= r.generation
  }

  /** A round that suspects a restart opens a generation without evidence: until it is proved again, no template admits a new
      user, and none that is in use is taken for compatible. */
  ghost predicate GateShut(r: Registry, g: Registry) {
    && g.generation == r.generation + 1 && |g.templates| == |r.templates|
    && forall t: nat :: t < |g.templates| ==>
         && !Admits(g, t) && g.templates[t].validated != Some(g.generation)
         && (g.templates[t].state == Compatible ==> g.templates[t].archived)
  }

  lemma SuspicionShutsTheGate(r: Registry, probe: Signal)
    requires EvidenceOk(r) && probe.known && r.anchor.Some?
    ensures GateShut(r, GateAfter(r, probe, true))
  {
  }

  function RewrittenUser(u: User, templates: seq<Template>, n: Node, now: int): User {
    u.(account := u.account.(intent := Reconciled(u, Reconcilable(templates, u.template), n, now)))
  }

  ghost predicate Rewritten(before: seq<User>, after: seq<User>, templates: seq<Template>, n: Node, now: int) {
    |after| == |before| && forall i :: 0 <= i < |before| ==> after[i] == RewrittenUser(before[i], templates, n, now)
  }

  ghost predicate AllCorrected(before: seq<User>, after: seq<User>, templates: seq<Template>, n: Node, now: int) {
    |after| == |before| && forall i :: 0 <= i < |before| ==> Corrected(before[i], after[i], LooksAfter(templates, before[i]), n, now)
  }

  lemma RewrittenIsCorrected(before: seq<User>, after: seq<User>, templates: seq<Template>, n: Node, now: int)
    requires Rewritten(before, after, templates, n, now)
    ensures AllCorrected(before, after, templates, n, now)
  {
    hide Corrected, Reconciled;
    forall i | 0 <= i < |before| ensures Corrected(before[i], after[i], LooksAfter(templates, before[i]), n, now) {
      assert after[i] == RewrittenUser(before[i], templates, n, now);
      ReconciledIsCorrected(before[i], after[i], LooksAfter(templates, before[i]), n, now);
    }
  }

  /** Every intruder in a listening inbound that the round looks at has a removal under way. */
  ghost predicate Queued(u: User, templates: seq<Template>, n: Node, rows: seq<Removal>) {
    Reconcilable(templates, u.template) && Listens(n, u) ==>
      forall id :: id in n.inbounds[u.tag].clients && Intrudes(u, id) ==> HasOpen(rows, Some(u.template), id)
  }

  ghost predicate KeepsOpen(rows: seq<Removal>, later: seq<Removal>) {
    forall t, id :: HasOpen(rows, t, id) ==> HasOpen(later, t, id)
  }

  lemma StaysQueued(users: seq<User>, n: nat, templates: seq<Template>, node: Node, rows: seq<Removal>, later: seq<Removal>)
    requires n <= |users| && KeepsOpen(rows, later)
    requires forall k :: 0 <= k < n ==> Queued(users[k], templates, node, rows)
    ensures forall k :: 0 <= k < n ==> Queued(users[k], templates, node, later)
  {
    hide HasOpen, Intrudes;
    forall k | 0 <= k < n ensures Queued(users[k], templates, node, later) {
      assert Queued(users[k], templates, node, rows);
    }
  }

  /** So has every orphan, and every failure whose inbound is gone. */
  ghost predicate EverythingQueued(users: seq<User>, templates: seq<Template>, earlier: seq<Removal>, n: Node, rows: seq<Removal>) {
    && (forall k :: 0 <= k < |users| ==> Queued(users[k], templates, n, rows))
    && (forall tag :: IsOrphan(users, n, tag) ==> HasOpen(rows, AnyTemplate(templates, 0), tag))
    && (forall k :: 0 <= k < |earlier| && Requeues(templates, n, earlier[k]) ==> HasOpen(rows, earlier[k].template, earlier[k].identity))
  }

  predicate UnderWay(rows: seq<Removal>, template: Option<nat>, identity: string) {
    exists k :: 0 <= k < |rows| && rows[k].template == template && rows[k].identity == identity &&
                rows[k].state in {Pending, OpState.Leased, RetryWait}
  }

  /** A transition client is left alone while the user has an open rotation. */
  predicate Belongs(u: User, id: string) {
    id == u.identity ||
    (id == u.identity + "-rotate" &&
     exists k :: 0 <= k < |u.account.intent.ops| && u.account.intent.ops[k].reason == Rotate &&
                 u.account.intent.ops[k].state in {Pending, OpState.Leased, RetryWait})
  }

  /** What a complete round has queued, said of the node and the rows alone: every client that does not belong in an inbound of a
      user it looks after, every panel inbound that no user has, and again every failed removal nobody took up whose inbound is
      gone. */
  ghost predicate RoundQueues(users: seq<User>, templates: seq<Template>, earlier: seq<Removal>, n: Node, rows: seq<Removal>) {
    && (forall i, id ::
          0 <= i < |users| && LooksAfter(templates, users[i]) && IsPanelNamespace(users[i].tag) && users[i].tag in n.inbounds &&
          id in n.inbounds[users[i].tag].clients && !Belongs(users[i], id) ==>
            UnderWay(rows, Some(users[i].template), id))
    && (forall tag ::
          tag in n.inbounds && IsPanelNamespace(tag) && (forall i :: 0 <= i < |users| ==> users[i].tag != tag) ==>
            UnderWay(rows, AnyTemplate(templates, 0), tag))
    && (forall k ::
          0 <= k < |earlier| && earlier[k].state == PermanentFailed && earlier[k].supersededBy.None? &&
          earlier[k].tag !in n.inbounds &&
          (earlier[k].template.Some? ==> earlier[k].template.value < |templates| && !templates[earlier[k].template.value].archived) ==>
            UnderWay(rows, earlier[k].template, earlier[k].identity))
  }

  lemma QueuedMeansUnderWay(users: seq<User>, templates: seq<Template>, earlier: seq<Removal>, n: Node, rows: seq<Removal>)
    requires EverythingQueued(users, templates, earlier, n, rows)
    ensures RoundQueues(users, templates, earlier, n, rows)
  {
    hide HasOpen, UnderWay, AnyTemplate, Intrudes, Belongs;
    forall t, id | HasOpen(rows, t, id) ensures UnderWay(rows, t, id) { OpenIsUnderWay(rows, t, id); }
    forall u: User, id ensures Intrudes(u, id) <==> !Belongs(u, id) { StrangersIntrude(u, id); }
    forall i, id | 0 <= i < |users| && LooksAfter(templates, users[i]) && IsPanelNamespace(users[i].tag) && users[i].tag in n.inbounds &&
                   id in n.inbounds[users[i].tag].clients && !Belongs(users[i], id)
      ensures UnderWay(rows, Some(users[i].template), id)
    {
      assert Queued(users[i], templates, n, rows);
    }
    forall tag | tag in n.inbounds && IsPanelNamespace(tag) && (forall i :: 0 <= i < |users| ==> users[i].tag != tag)
      ensures UnderWay(rows, AnyTemplate(templates, 0), tag)
    {
      assert IsOrphan(users, n, tag);
    }
  }

  lemma OpenIsUnderWay(rows: seq<Removal>, template: Option<nat>, identity: string)
    requires HasOpen(rows, template, identity)
    ensures UnderWay(rows, template, identity)
  {
  }

  lemma StrangersIntrude(u: User, id: string)
    ensures Intrudes(u, id) <==> !Belongs(u, id)
  {
  }

  /** And nothing else: what it newly asks to have removed from an inbound that is there does not belong in it, and an inbound it
      asks to have removed whole has no user. */
  ghost predicate QueuesNoOther(users: seq<User>, earlier: seq<Removal>, n: Node, rows: seq<Removal>) {
    forall k :: |earlier| <= k < |rows| && rows[k].tag in n.inbounds && IsPanelNamespace(rows[k].tag) ==>
      if rows[k].whole then forall i :: 0 <= i < |users| ==> users[i].tag != rows[k].tag
      else
        && rows[k].identity in n.inbounds[rows[k].tag].clients
        && exists i :: 0 <= i < |users| && users[i].tag == rows[k].tag && !Belongs(users[i], rows[k].identity)
  }

  lemma GrownQueuesNoOther(users: seq<User>, templates: seq<Template>, earlier: seq<Removal>, n: Node, rows: seq<Removal>)
    requires Grown(users, templates, earlier, n, rows)
    ensures QueuesNoOther(users, earlier, n, rows)
  {
    hide QueueOk, HasOpen, Intrudes, Belongs;
    forall k: nat | |earlier| <= k < |rows| && !rows[k].whole && rows[k].tag in n.inbounds && IsPanelNamespace(rows[k].tag)
      ensures rows[k].identity in n.inbounds[rows[k].tag].clients
      ensures exists i :: 0 <= i < |users| && users[i].tag == rows[k].tag && !Belongs(users[i], rows[k].identity)
    {
      assert Warranted(users, templates, earlier, n, rows[k]);
      var i :| 0 <= i < |users| && IsIntruder(users[i], n, rows[k]);
      StrangersIntrude(users[i], rows[k].identity);
    }
  }

  lemma OrphansStay(users: seq<User>, home: Option<nat>, n: Node, rows: seq<Removal>, later: seq<Removal>, last: seq<Removal>)
    requires forall tag :: IsOrphan(users, n, tag) ==> HasOpen(rows, home, tag)
    requires KeepsOpen(rows, later) && KeepsOpen(later, last)
    ensures forall tag :: IsOrphan(users, n, tag) ==> HasOpen(last, home, tag)
  {
  }

  lemma KeptOpen(rows: seq<Removal>, later: seq<Removal>, last: seq<Removal>)
    requires KeepsOpen(rows, later) && KeepsOpen(later, last)
    ensures KeepsOpen(rows, last)
  {
  }

  lemma GrownFromItself(users: seq<User>, templates: seq<Template>, rows: seq<Removal>, n: Node)
    requires QueueOk(rows)
    ensures Grown(users, templates, rows, n, rows)
  {
  }

  lemma NotLooked(u: User, n: Node, now: int)
    ensures Reconciled(u, false, n, now) == u.account.intent
  {
  }

  class Reconciler {
    const db: Database
    const queue: Removals
    const adapter: Adapter
    var degraded: bool

    constructor (db: Database, queue: Removals, adapter: Adapter)
      ensures this.db == db && this.queue == queue && this.adapter == adapter && !degraded
    {
      this.db, this.queue, this.adapter := db, queue, adapter;
      degraded := false;
    }

    /** Queues the removal of every client that does not belong in a listening inbound. */
    method QueueIntruders(i: nat, now: int, ghost users: seq<User>, ghost earlier: seq<Removal>)
      requires i < |db.users| && Listens(adapter.State(), db.users[i])
      requires i < |users| && users[i] == db.users[i]
      requires Grown(users, db.templates, earlier, adapter.State(), queue.rows) && queue.Valid()
      modifies queue
      ensures Grown(users, db.templates, earlier, adapter.State(), queue.rows) && queue.Valid()
      ensures KeepsOpen(old(queue.rows), queue.rows)
      ensures forall id :: id in adapter.inbounds[db.users[i].tag].clients && Intrudes(db.users[i], id) ==>
                HasOpen(queue.rows, Some(db.users[i].template), id)
    {
      var u := db.users[i];
      var rotating := u.account.intent.HasOpenRotation();
      var left := adapter.inbounds[u.tag].clients.Keys;
      while left != {}
        invariant left <= adapter.inbounds[u.tag].clients.Keys
        invariant Grown(users, db.templates, earlier, adapter.State(), queue.rows) && queue.Valid()
        invariant KeepsOpen(old(queue.rows), queue.rows)
        invariant forall id :: id in adapter.inbounds[u.tag].clients && id !in left && Intrudes(u, id) ==>
                    HasOpen(queue.rows, Some(u.template), id)
        decreases |left|
      {
        hide QueueOk, Grown, HasOpen;
        var id :| id in left;
        left := left - {id};
        if id != u.identity && !(rotating && id == RotationSafetyId(u.identity)) {
          assert IsIntruder(users[i], adapter.State(), NewRemoval(Some(u.template), u.tag, false, id, now));
          EnqueueGrows(users, db.templates, earlier, adapter.State(), queue.rows, Some(u.template), u.tag, false, id, now);
          EnqueueKeepsQueue(queue.rows, Some(u.template), u.tag, false, id, now);
          var _ := queue.EnqueueDriftRemoval(Some(u.template), u.tag, false, id, now);
        }
      }
    }

    /** Records what the node shows of a user and, if that is not what is wanted and nothing is under way, queues the
        correction. */
    method ReconcileUser(i: nat, now: int)
      requires db.Valid() && i < |db.users|
      modifies db`users
      ensures db.Valid() && db.users == WithIntentAt(old(db.users), i, Reconciled(old(db.users)[i], true, adapter.State(), now))
      ensures Corrected(old(db.users)[i], db.users[i], true, adapter.State(), now)
    {
      ReconciledIsCorrected(db.users[i], db.users[i].(account := db.users[i].account.(intent := Reconciled(db.users[i], true, adapter.State(), now))),
                            true, adapter.State(), now);
      hide Corrected;
      var u := db.users[i];
      var a := u.account.intent;
      var actual := IsPanelNamespace(u.tag) && u.tag in adapter.inbounds;
      if actual { actual := u.identity in adapter.inbounds[u.tag].clients; }
      assert actual == Serves(adapter.State(), u);
      hide Intent.EnqueueReconcile, PortsDistinct;
      db.RecordObservation(i, actual);
      db.ConfirmInboundPresence(i, actual);
      if a.PendingSync() || actual == a.Desired() { return; }
      if a.HasOpenOperation() { return; }
      var _ := db.EnqueueReconcile(i, Intent.Look(a), now);
    }

    /** Whether the node looks as if it had lost everything since the last round. */
    method LooksVanished() returns (vanished: bool)
      ensures vanished <==> Vanished(db.users, adapter.State())
    {
      var expected, actual, previous := 0, 0, 0;
      for i := 0 to |db.users|
        invariant expected >= 0 && actual >= 0 && previous >= 0
        invariant expected > 0 <==> exists k :: 0 <= k < i && Wants(db.users[k])
        invariant actual == 0 <==> forall k :: 0 <= k < i && Wants(db.users[k]) ==> !Listens(adapter.State(), db.users[k])
        invariant previous > 0 <==>
                    exists k :: 0 <= k < i && Wants(db.users[k]) && db.users[k].account.intent.inbound.observed == Some(true)
      {
        var u := db.users[i];
        if Wants(u) {
          expected := expected + 1;
          if IsPanelNamespace(u.tag) && u.tag in adapter.inbounds { actual := actual + 1; }
          if u.account.intent.inbound.observed == Some(true) { previous := previous + 1; }
        }
      }
      return expected > 0 && actual == 0 && previous > 0;
    }

    /** Queues the removal of every panel inbound no user owns. */
    method QueueOrphans(now: int, ghost earlier: seq<Removal>)
      requires Grown(db.users, db.templates, earlier, adapter.State(), queue.rows) && queue.Valid()
      modifies queue
      ensures Grown(db.users, db.templates, earlier, adapter.State(), queue.rows) && queue.Valid()
      ensures forall tag :: IsOrphan(db.users, adapter.State(), tag) ==> HasOpen(queue.rows, AnyTemplate(db.templates, 0), tag)
    {
      var home := AnyTemplate(db.templates, 0);
      var left := adapter.inbounds.Keys;
      while left != {}
        invariant left <= adapter.inbounds.Keys
        invariant Grown(db.users, db.templates, earlier, adapter.State(), queue.rows) && queue.Valid()
        invariant forall tag :: IsOrphan(db.users, adapter.State(), tag) && tag !in left ==> HasOpen(queue.rows, home, tag)
        decreases |left|
      {
        hide QueueOk, Grown, HasOpen;
        var tag :| tag in left;
        left := left - {tag};
        var known := KnowsTag(tag);
        if IsPanelNamespace(tag) && !known {
          EnqueueGrows(db.users, db.templates, earlier, adapter.State(), queue.rows, home, tag, true, tag, now);
          EnqueueKeepsQueue(queue.rows, home, tag, true, tag, now);
          var _ := queue.EnqueueDriftRemoval(home, tag, true, tag, now);
        }
      }
    }

    method KnowsTag(tag: string) returns (known: bool)
      ensures known <==> exists i :: 0 <= i < |db.users| && db.users[i].tag == tag
    {
      for i := 0 to |db.users|
        invariant forall k :: 0 <= k < i ==> db.users[k].tag != tag
      {
        if db.users[i].tag == tag { return true; }
      }
      return false;
    }

    /** A removal that failed for good is asked for once more when its inbound is gone, so that it can be closed. */
    method RequeueFailed(now: int, ghost users: seq<User>, ghost earlier: seq<Removal>)
      requires Grown(users, db.templates, earlier, adapter.State(), queue.rows) && queue.Valid()
      modifies queue
      ensures Grown(users, db.templates, earlier, adapter.State(), queue.rows) && queue.Valid()
      ensures KeepsOpen(old(queue.rows), queue.rows)
      ensures forall k :: 0 <= k < |earlier| && Requeues(db.templates, adapter.State(), earlier[k]) ==>
                HasOpen(queue.rows, earlier[k].template, earlier[k].identity)
    {
      hide QueueOk, Grown, HasOpen, Requeues;
      var rows := queue.rows;
      AllTakenUp(users, db.templates, earlier, adapter.State(), rows);
      for k := 0 to |rows|
        invariant Grown(users, db.templates, earlier, adapter.State(), queue.rows) && queue.Valid()
        invariant KeepsOpen(rows, queue.rows)
        invariant forall j :: 0 <= j < k && Requeues(db.templates, adapter.State(), rows[j]) ==>
                    HasOpen(queue.rows, rows[j].template, rows[j].identity)
      {
        var r := rows[k];
        if Requeues(db.templates, Node(adapter.inbounds, adapter.occupied, adapter.strict, adapter.probes), r) {
          IsWarranted(users, db.templates, earlier, adapter.State(), rows, k, now);
          EnqueueGrows(users, db.templates, earlier, adapter.State(), queue.rows, r.template, r.tag, r.whole, r.identity, now);
          EnqueueKeepsQueue(queue.rows, r.template, r.tag, r.whole, r.identity, now);
          var _ := queue.EnqueueDriftRemoval(r.template, r.tag, r.whole, r.identity, now);
        }
      }
    }

    /** The users one by one: intruders first, then the user's own row. False: a listing was lost half way. */
    method ReconcileUsers(lost: set<nat>, now: int, ghost earlier: seq<Removal>) returns (ok: bool)
      requires db.Valid() && queue.Valid() && Grown(db.users, db.templates, earlier, adapter.State(), queue.rows)
      modifies db`users, queue
      ensures db.Valid() && queue.Valid() && |db.users| == |old(db.users)|
      ensures Grown(old(db.users), db.templates, earlier, adapter.State(), queue.rows)
      ensures KeepsOpen(old(queue.rows), queue.rows)
      ensures !ok ==> lost != {}
      ensures ok ==> Rewritten(old(db.users), db.users, db.templates, adapter.State(), now)
      ensures ok ==> forall k :: 0 <= k < |old(db.users)| ==> Queued(old(db.users)[k], db.templates, adapter.State(), queue.rows)
    {
      ghost var before := db.users;
      for i := 0 to |db.users|
        invariant db.Valid() && queue.Valid() && |db.users| == |before|
        invariant forall k :: i <= k < |before| ==> db.users[k] == before[k]
        invariant forall k :: 0 <= k < i ==> db.users[k] == RewrittenUser(before[k], db.templates, adapter.State(), now)
        invariant Grown(before, db.templates, earlier, adapter.State(), queue.rows)
        invariant KeepsOpen(old(queue.rows), queue.rows)
        invariant forall k :: 0 <= k < i ==> Queued(before[k], db.templates, adapter.State(), queue.rows)
      {
        hide Grown, QueueOk, KeepsOpen, Queued, RewrittenUser, PortsDistinct;
        ghost var rows := queue.rows;
        var done := ReconcileRow(i, i in lost, now, before, earlier);
        if !done { return false; }
        StaysQueued(before, i, db.templates, adapter.State(), rows, queue.rows);
        KeptOpen(old(queue.rows), rows, queue.rows);
      }
      return true;
    }

    /** One user of a round. */
    method ReconcileRow(i: nat, lost: bool, now: int, ghost users: seq<User>, ghost earlier: seq<Removal>) returns (ok: bool)
      requires db.Valid() && queue.Valid() && i < |db.users| && i < |users| && db.users[i] == users[i]
      requires Grown(users, db.templates, earlier, adapter.State(), queue.rows)
      modifies db`users, queue
      ensures db.Valid() && queue.Valid() && |db.users| == |old(db.users)|
      ensures Grown(users, db.templates, earlier, adapter.State(), queue.rows) && KeepsOpen(old(queue.rows), queue.rows)
      ensures forall k :: 0 <= k < |db.users| && k != i ==> db.users[k] == old(db.users)[k]
      ensures !ok ==> lost
      ensures ok ==> db.users[i] == RewrittenUser(users[i], db.templates, adapter.State(), now)
      ensures ok ==> Queued(users[i], db.templates, adapter.State(), queue.rows)
    {
      hide Grown, QueueOk, HasOpen, Reconciled, Intrudes, PortsDistinct;
      var u := db.users[i];
      if !Reconcilable(db.templates, u.template) {
        NotLooked(u, adapter.State(), now);
        return true;
      }
      if IsPanelNamespace(u.tag) && u.tag in adapter.inbounds {
        if lost { return false; }
        QueueIntruders(i, now, users, earlier);
      }
      ReconcileUser(i, now);
      return true;
    }

    /** Moves the generation before anything else, so that a restart is seen against the old anchor. */
    method RefreshGate(probe: Signal, suspected: bool)
      modifies db`anchor, db`generation, db`uptime, db`templates
      ensures db.Gate() == GateAfter(old(db.Gate()), probe, suspected)
    {
      hide Invalidate;
      var generation, _ := db.AdvanceCapabilityGeneration(probe.(suspected := suspected));
      db.MarkInstanceHealthy(if probe.known then Some(WholeSeconds(probe.boot)) else None);
      var _ := db.InvalidateStaleCapabilityEvidence(generation);
    }

    /** A whole round. None: the node could not be reached or a listing failed, and the round is marked degraded. */
    method ReconcileOnce(probe: Option<Signal>, listed: bool, lost: set<nat>, now: int) returns (round: Option<bool>)
      requires db.Valid() && queue.Valid()
      modifies this`degraded, db`users, db`anchor, db`generation, db`uptime, db`templates, queue
      ensures db.Valid() && queue.Valid()
      ensures degraded <==> round.None?
      ensures round.None? ==> probe.None? || !listed || lost != {}
      ensures probe.None? || !listed ==> round.None? && db.users == old(db.users) && queue.rows == old(queue.rows) && db.Gate() == old(db.Gate())
      ensures round.Some? ==>
                && round.value == Vanished(old(db.users), adapter.State())
                && db.Gate() == GateAfter(old(db.Gate()), probe.value, old(degraded) || round.value)
                && Rewritten(old(db.users), db.users, db.templates, adapter.State(), now)
                && Grown(old(db.users), db.templates, old(queue.rows), adapter.State(), queue.rows)
                && EverythingQueued(old(db.users), db.templates, old(queue.rows), adapter.State(), queue.rows)
      ensures round.Some? ==> AllCorrected(old(db.users), db.users, db.templates, adapter.State(), now)
      ensures round.Some? ==> RoundQueues(old(db.users), db.templates, old(queue.rows), adapter.State(), queue.rows)
      ensures round.Some? ==> QueuesNoOther(old(db.users), old(queue.rows), adapter.State(), queue.rows)
      ensures round.Some? && probe.value.known && (old(degraded) || round.value) && EvidenceOk(old(db.Gate())) && old(db.anchor).Some? ==>
                GateShut(old(db.Gate()), db.Gate())
    {
      hide AllCorrected, EvidenceOk, GateShut, RoundQueues, QueuesNoOther;
      hide Grown, QueueOk, HasOpen, KeepsOpen, Queued, Rewritten, GateAfter, Vanished, PortsDistinct, IsOrphan, Requeues;
      if probe.None? {
        degraded := true;
        return None;
      }
      var reconnected := degraded;
      degraded := false;
      if !listed {
        degraded := true;
        return None;
      }
      var vanished := LooksVanished();
      if EvidenceOk(db.Gate()) && probe.value.known && db.anchor.Some? { SuspicionShutsTheGate(db.Gate(), probe.value); }
      RefreshGate(probe.value, reconnected || vanished);
      ghost var users, earlier := db.users, queue.rows;
      GrownFromItself(users, db.templates, earlier, adapter.State());
      QueueOrphans(now, earlier);
      ghost var orphaned := queue.rows;
      var ok := ReconcileUsers(lost, now, earlier);
      if !ok {
        degraded := true;
        return None;
      }
      ghost var reconciled := queue.rows;
      RequeueFailed(now, users, earlier);
      StaysQueued(users, |users|, db.templates, adapter.State(), reconciled, queue.rows);
      OrphansStay(users, AnyTemplate(db.templates, 0), adapter.State(), orphaned, reconciled, queue.rows);
      RewrittenIsCorrected(users, db.users, db.templates, adapter.State(), now);
      QueuedMeansUnderWay(users, db.templates, earlier, adapter.State(), queue.rows);
      GrownQueuesNoOther(users, db.templates, earlier, adapter.State(), queue.rows);
      return Some(vanished);
    }
  }

  // ---- when the restart signal is an edge ----

  /** A round that saw everything vanish sees it again, nothing having been rebuilt, exactly when some wanted inbound
      belongs to a template the round does not look at: its last observation is never brought up to date. */
  lemma VanishedRepeatsExactlyWhen(users: seq<User>, after: seq<User>, templates: seq<Template>, n: Node, now: int)
    requires Vanished(users, n) && |after| == |users|
    requires forall i :: 0 <= i < |users| ==> !users[i].account.intent.inbound.released || !Wants(users[i])
    requires forall i :: 0 <= i < |users| ==>
               after[i] == users[i].(account := users[i].account.(intent := Reconciled(users[i], Reconcilable(templates, users[i].template), n, now)))
    ensures Vanished(after, n) <==>
            exists i :: 0 <= i < |users| && Wants(users[i]) && users[i].account.intent.inbound.observed == Some(true) &&
                        !Reconcilable(templates, users[i].template)
  {
    forall i | 0 <= i < |users|
      ensures Wants(after[i]) == Wants(users[i]) && Listens(n, after[i]) == Listens(n, users[i])
      ensures Wants(users[i]) ==>
                after[i].account.intent.inbound.observed ==
                if Reconcilable(templates, users[i].template) then Some(false) else users[i].account.intent.inbound.observed
    {
      ReconciledObserves(users[i], Reconcilable(templates, users[i].template), n, now);
    }
  }

  lemma ReconciledObserves(u: User, looked: bool, n: Node, now: int)
    ensures var a, b := u.account.intent, Reconciled(u, looked, n, now);
            && b.Desired() == a.Desired()
            && (!looked ==> b == a)
            && (looked && !a.inbound.released ==> b.inbound.observed == Some(Serves(n, u)))
  {
  }

  /** A user confirmed as listening, whose template is found incompatible before the node restarts, keeps it up: so it
      does after this round, and, nothing having changed, after every later one. */
  lemma IncompatibleKeepsItUp(u: User, templates: seq<Template>, n: Node, port: int, key: int, created: int, owner: nat, taken: int, duration: int, now: int)
    requires created <= taken
    requires u.account.intent == Confirm(LeaseOp(Created(port, key, created), 0, owner, taken, duration).value, 0, owner, 1, true).0
    requires u.template < |templates| && templates[u.template].state == Incompatible && n.inbounds == map[]
    ensures Inv(u.account.intent) && !u.account.intent.PendingSync()
    ensures var looked := Reconcilable(templates, u.template);
            Vanished([u], n) && Reconciled(u, looked, n, now) == u.account.intent
  {
    hide Evolves, CredentialsOk;
    var a := Created(port, key, created);
    CreatedOk(port, key, created);
    LeaseKeeps(a, 0, owner, taken, duration);
    var b := LeaseOp(a, 0, owner, taken, duration).value;
    ConfirmKeeps(b, 0, owner, Intent.Look(b));
    assert [u][0] == u;
  }
}
