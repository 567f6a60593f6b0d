/** One round of the reconciler and one undisturbed pass of the worker, on any node: who must not listen is stopped, and who
    is served as it should be stays so. */
module Correction {
  import opened Domain
  import opened Xray
  import opened Synchronizer
  import opened Projection
  import opened Convergence
  import opened Outcomes
  import opened Intent
  import opened Store
  import opened Drift
  import opened Capability
  import opened Rows
  import opened Worker
  import opened Reconciler
  import opened Cleanup
  import opened Recovery

  /** The removal names no user's inbound and no user's own client. */
  predicate Harmless(users: seq<User>, r: Removal) {
    forall i :: 0 <= i < |users| && users[i].tag == r.tag ==> !r.whole && r.identity != users[i].identity
  }

  predicate AllHarmless(users: seq<User>, rows: seq<Removal>) {
    forall k :: 0 <= k < |rows| ==> Harmless(users, rows[k])
  }

  /** Nothing a round queues could take away a user's own client or inbound. */
  lemma RoundIsHarmless(users: seq<User>, templates: seq<Template>, earlier: seq<Removal>, n: Node, rows: seq<Removal>)
    requires Grown(users, templates, earlier, n, rows) && AllHarmless(users, earlier) && Identified(users)
    ensures AllHarmless(users, rows)
  {
    hide QueueOk, HasOpen, Intrudes;
    forall k | 0 <= k < |rows| ensures Harmless(users, rows[k]) {
      if k < |earlier| {
        assert rows[k].tag == earlier[k].tag && rows[k].whole == earlier[k].whole && rows[k].identity == earlier[k].identity;
        assert Harmless(users, earlier[k]);
      } else {
        WarrantedIsHarmless(users, templates, earlier, n, rows[k]);
      }
    }
  }

  lemma WarrantedIsHarmless(users: seq<User>, templates: seq<Template>, earlier: seq<Removal>, n: Node, r: Removal)
    requires Warranted(users, templates, earlier, n, r) && AllHarmless(users, earlier) && Identified(users)
    ensures Harmless(users, r)
  {
    if !r.whole && exists i :: 0 <= i < |users| && IsIntruder(users[i], n, r) {
      var i :| 0 <= i < |users| && IsIntruder(users[i], n, r);
      forall j | 0 <= j < |users| && users[j].tag == r.tag ensures r.identity != users[j].identity { assert j == i; }
    } else if !(r.whole && IsOrphan(users, n, r.tag)) {
      var k :| 0 <= k < |earlier| && IsFailed(earlier[k]) && earlier[k].tag == r.tag && earlier[k].whole == r.whole &&
               HasKey(earlier[k], r.template, r.identity);
      assert Harmless(users, earlier[k]);
    }
  }

  // ---- the pass over the operations ----

  /** An undisturbed attempt ends in no failure a template could be blamed for. */
  lemma CalmNeverRetries(w: Work, n: Node)
    requires w.Sync? && Proper(w)
    ensures !Finish(w, Start(w), n, []).0.Retry?
  {
    hide Finish, Proper;
    var o := Finish(w, Start(w), n, []).0;
    if o.Retry? {
      if !w.presence {
        RemovalRetriesExactlyWhen(w, n, [], o.cause);
      } else if w.reason == PortChange {
        PortChangeRetriesExactlyWhen(w, n, [], o.cause);
      } else if w.reason != Rotate {
        CreationRetriesExactlyWhen(w, n, [], o.cause);
      } else if w.tag in n.inbounds {
        RotationRetriesExactlyWhen(w, n, [], o.cause);
      } else {
        LostRotationRetriesExactlyWhen(w, n, [], o.cause);
      }
    }
  }

  /** An undisturbed removal is done at once. */
  lemma CalmRemoval(w: Work, n: Node)
    requires w.Sync? && !w.presence && Proper(w)
    ensures Finish(w, Start(w), n, []) == (Confirm(false, 0), Drop(n, w.tag))
  {
    hide Finish, Step, Drop;
    Endings(w);
    Synchronizer.Advance(w, RemoveFence, n, []);
    RemovalFenceStep(w, n, CALM);
    Synchronizer.Advance(w, RemoveCall, n, []);
    RemovalCallStep(w, n, CALM);
    ConfirmIsTruthful(w, n, []);
  }

  predicate SameAt(n: Node, n': Node, tag: string) {
    (tag in n.inbounds <==> tag in n'.inbounds) && (tag in n.inbounds ==> n'.inbounds[tag] == n.inbounds[tag])
  }

  ghost predicate CalmPass(mid: seq<User>, after: seq<User>, order: seq<nat>, nodes: seq<Node>, options: Options, now: int) {
    && AllInv(mid) && Identified(mid) && OptionsOk(options)
    && Chronicle(mid, after, order, nodes, [], options, now) && AllTried(mid, after, order, nodes, [], options, now)
  }

  /** One turn: the user's own work, on its own inbound. */
  lemma OneTurn(mid: seq<User>, after: seq<User>, order: seq<nat>, nodes: seq<Node>, options: Options, now: int, m: nat)
    requires CalmPass(mid, after, order, nodes, options, now) && m < |order|
    ensures order[m] < |mid| == |after| && |mid[order[m]].account.intent.ops| > 0 && |nodes| == |order| + 1
    ensures var u, v := mid[order[m]], after[order[m]];
            var w := WorkOf(u, LastOp(u));
            && Proper(w)
            && OthersSame(nodes[m], nodes[m + 1], u.tag)
            && nodes[m + 1] == Finish(w, Start(w), nodes[m], []).1
            && Recorded(LeasedTo(u, options, now).account.intent, v.account.intent, LastOp(u), Finish(w, Start(w), nodes[m], []).0,
                        options.maxRetry, now)
  {
    hide Finish, Recorded, Chronicle, Inv, OthersSame;
    var u, v := mid[order[m]], after[order[m]];
    assert Tried(u, v, nodes[m], nodes[m + 1], Fate([], m), options, now);
    var w := WorkOf(u, LastOp(u));
    assert Loads(w, LeasedTo(u, options, now), LastOp(u));
  }

  lemma {:induction false} PassLeaves(mid: seq<User>, after: seq<User>, order: seq<nat>, nodes: seq<Node>, options: Options, now: int,
                                      tag: string, from: nat, to: nat)
    requires CalmPass(mid, after, order, nodes, options, now) && from <= to <= |order| && |nodes| == |order| + 1
    requires forall m :: from <= m < to ==> order[m] < |mid| && mid[order[m]].tag != tag
    ensures SameAt(nodes[from], nodes[to], tag)
    decreases if from <= to then to - from else 0
  {
    hide CalmPass, SameAt;
    if from < to {
      TurnLeaves(mid, after, order, nodes, options, now, from, tag);
      PassLeaves(mid, after, order, nodes, options, now, tag, from + 1, to);
      SameOn(nodes[from], nodes[from + 1], nodes[to], tag);
    } else {
      SameOfItself(nodes[from], tag);
    }
  }

  lemma SameOn(n: Node, m: Node, n': Node, tag: string)
    requires SameAt(n, m, tag) && SameAt(m, n', tag)
    ensures SameAt(n, n', tag)
  {
  }

  lemma SameOfItself(n: Node, tag: string)
    ensures SameAt(n, n, tag)
  {
  }

  lemma TurnLeaves(mid: seq<User>, after: seq<User>, order: seq<nat>, nodes: seq<Node>, options: Options, now: int, m: nat, tag: string)
    requires CalmPass(mid, after, order, nodes, options, now) && m < |order| && |nodes| == |order| + 1
    requires order[m] < |mid| && mid[order[m]].tag != tag
    ensures SameAt(nodes[m], nodes[m + 1], tag)
  {
    hide CalmPass, Finish, Recorded, OthersSame, SameAt, Proper;
    OneTurn(mid, after, order, nodes, options, now, m);
    OthersAlike(nodes[m], nodes[m + 1], mid[order[m]].tag, tag);
  }

  lemma OthersAlike(n: Node, n': Node, tag: string, other: string)
    requires OthersSame(n, n', tag) && other != tag
    ensures SameAt(n, n', other)
  {
    assert other in n.inbounds ==> other in n.inbounds - {tag};
    assert other in n'.inbounds ==> other in n'.inbounds - {tag};
    assert other in n.inbounds - {tag} ==> n.inbounds[other] == (n.inbounds - {tag})[other] == n'.inbounds[other];
  }

  lemma PassShape(mid: seq<User>, after: seq<User>, order: seq<nat>, nodes: seq<Node>, options: Options, now: int)
    requires CalmPass(mid, after, order, nodes, options, now)
    ensures |after| == |mid| && |nodes| == |order| + 1
    ensures forall m, l :: 0 <= m < l < |order| ==> order[m] != order[l]
    ensures forall m :: 0 <= m < |order| ==> order[m] < |mid| && DueAt(mid[order[m]], now)
    ensures forall m, i :: 0 <= m < |order| && 0 <= i < |mid| && i != order[m] ==> mid[i].tag != mid[order[m]].tag
    ensures forall i :: 0 <= i < |mid| && i !in order ==> after[i] == mid[i]
  {
    hide Inv, Tried, Handled, DueAt;
    forall m | 0 <= m < |order| ensures order[m] < |mid| && DueAt(mid[order[m]], now) {
      assert Chapter(mid, after, order[m], nodes[m], nodes[m + 1], Fate([], m), options, now);
    }
  }

  /** A user whose last operation is to stop listening, and is taken up. */
  lemma StoppedByItsTurn(mid: seq<User>, after: seq<User>, order: seq<nat>, nodes: seq<Node>, options: Options, now: int, m: nat)
    requires CalmPass(mid, after, order, nodes, options, now) && m < |order| && |nodes| == |order| + 1
    requires order[m] < |mid| && |mid[order[m]].account.intent.ops| > 0
    requires !mid[order[m]].account.intent.ops[LastOp(mid[order[m]])].presence
    ensures |after| == |mid| && mid[order[m]].tag !in nodes[|order|].inbounds
    ensures var b := after[order[m]].account.intent; b.projection == Absent && b.syncedRevision == mid[order[m]].account.intent.desiredRevision
  {
    hide CalmPass, Finish;
    PassShape(mid, after, order, nodes, options, now);
    OneTurn(mid, after, order, nodes, options, now, m);
    var u := mid[order[m]];
    CalmRemoval(WorkOf(u, LastOp(u)), nodes[m]);
    CurrentTurn(mid, after, order, nodes, options, now, m);
    PassLeaves(mid, after, order, nodes, options, now, u.tag, m + 1, |order|);
  }

  lemma CurrentTurn(mid: seq<User>, after: seq<User>, order: seq<nat>, nodes: seq<Node>, options: Options, now: int, m: nat)
    requires CalmPass(mid, after, order, nodes, options, now) && m < |order| && order[m] < |mid| && |mid[order[m]].account.intent.ops| > 0
    ensures mid[order[m]].account.intent.ops[LastOp(mid[order[m]])].revision == mid[order[m]].account.intent.desiredRevision
  {
    hide Chronicle, AllTried, Inv;
    LastIsCurrent(mid[order[m]].account.intent);
  }

  /** In an undisturbed pass nobody's template is blamed for anything. */
  lemma CalmPassNeverComplains(mid: seq<User>, after: seq<User>, order: seq<nat>, nodes: seq<Node>, options: Options, now: int)
    requires Identified(mid) && AllInv(mid) && Chronicle(mid, after, order, nodes, [], options, now)
    ensures NoComplaints(mid, order, nodes, [])
  {
    hide Inv, Handled, DueAt, Finish;
    forall m | 0 <= m < |order| ensures order[m] < |mid| && !Complains(mid[order[m]], nodes[m], Fate([], m)) {
      assert Chapter(mid, after, order[m], nodes[m], nodes[m + 1], Fate([], m), options, now);
      var u := mid[order[m]];
      CalmNeverRetries(WorkOf(u, LastOp(u)), nodes[m]);
    }
  }

  // ---- the round ----

  lemma RoundKeepsIntent(u: User, looked: bool, n: Node, now: int)
    requires Inv(u.account.intent)
    ensures Inv(Reconciled(u, looked, n, now))
  {
    hide Inv, Observe, EnqueueReconcile, Evolves;
    var a := u.account.intent;
    if looked {
      ObserveKeeps(a, Serves(n, u));
      var seen := Observe(a, Serves(n, u));
      OwnLook(a, seen);
      ReconcileKeeps(seen, Intent.Look(a), now);
    }
  }

  lemma OwnLook(a: Allocation, seen: Allocation)
    requires Inv(a) && Evolves(a, seen)
    ensures SnapshotOk(seen, Intent.Look(a))
  {
    hide CredentialsOk, SyncOk, IntentOk;
  }

  ghost predicate Rounded(before: seq<User>, mid: seq<User>, templates: seq<Template>, n: Node, now: int) {
    Rewritten(before, mid, templates, n, now) && AllCorrected(before, mid, templates, n, now)
  }

  lemma RoundKeepsAll(before: seq<User>, mid: seq<User>, templates: seq<Template>, n: Node, now: int)
    requires Rounded(before, mid, templates, n, now) && AllInv(before) && Identified(before)
    ensures |mid| == |before| && AllInv(mid) && Identified(mid)
    ensures forall i :: 0 <= i < |before| ==> mid[i].tag == before[i].tag && mid[i].identity == before[i].identity && mid[i].template == before[i].template
  {
    hide Inv, Reconciled, Corrected, Reconcilable;
    forall i | 0 <= i < |before| ensures mid[i] == RewrittenUser(before[i], templates, n, now) && Inv(mid[i].account.intent) {
      RoundKeepsIntent(before[i], Reconcilable(templates, before[i].template), n, now);
    }
  }

  /** Nothing was pending, and the round looks after the user. */
  predicate LookedAfter(u: User, templates: seq<Template>) { !u.account.intent.PendingSync() && LooksAfter(templates, u) }

  lemma RoundStops(u: User, v: User, n: Node, now: int)
    requires Inv(u.account.intent) && !u.account.intent.PendingSync() && Corrected(u, v, true, n, now) && IsServed(u, n) && !Wants(u)
    ensures |v.account.intent.ops| > 0 && DueAt(v, now) && !v.account.intent.ops[LastOp(v)].presence
  {
    hide Inv;
    var ops := v.account.intent.ops;
    assert Due(ops[|ops| - 1], now);
  }

  lemma RoundLeaves(u: User, v: User, n: Node, now: int)
    requires Inv(u.account.intent) && !u.account.intent.PendingSync() && Corrected(u, v, true, n, now) && IsServed(u, n) && Wants(u)
    ensures !DueAt(v, now) && v.account.intent.ops == u.account.intent.ops
    ensures v.account.intent.projection == Present && v.account.intent.desiredRevision == u.account.intent.desiredRevision
  {
    hide Inv;
    AllClosed(u.account.intent);
  }

  // ---- both ----

  /** What becomes of a settled user whose own client was on its inbound. */
  predicate Corrects(u: User, v: User, n: Node, n': Node) {
    IsServed(u, n) ==>
      if Wants(u) then
        && IsServed(u, n') && n'.inbounds[u.tag].port == n.inbounds[u.tag].port
        && n'.inbounds[u.tag].clients[u.identity] == n.inbounds[u.tag].clients[u.identity]
        && v.account.intent.projection == Present && v.account.intent.ops == u.account.intent.ops
      else
        u.tag !in n'.inbounds && v.account.intent.projection == Absent
  }

  ghost predicate BothPasses(before: seq<User>, mid: seq<User>, after: seq<User>, rows: seq<Removal>, swept: seq<Removal>,
                             order: seq<nat>, nodes: seq<Node>, cleaned: seq<nat>, left: seq<Node>, templates: seq<Template>,
                             options: Options, now: int) {
    && |nodes| == |order| + 1 && |left| == |cleaned| + 1 && left[0] == nodes[|order|]
    && AllInv(before) && Identified(before) && Rounded(before, mid, templates, nodes[0], now)
    && CalmPass(mid, after, order, nodes, options, now)
    && AllHarmless(before, rows) && AllCleaned(rows, swept, after, cleaned, left, [], options, now)
    && (forall i: nat :: i < |mid| && DueAt(mid[i], now) && LooksAfter(templates, mid[i]) ==> i in order)
  }

  lemma OneCorrected(before: seq<User>, mid: seq<User>, after: seq<User>, rows: seq<Removal>, swept: seq<Removal>,
                     order: seq<nat>, nodes: seq<Node>, cleaned: seq<nat>, left: seq<Node>, templates: seq<Template>,
                     options: Options, now: int, i: nat)
    requires BothPasses(before, mid, after, rows, swept, order, nodes, cleaned, left, templates, options, now)
    requires i < |before| && LookedAfter(before[i], templates)
    ensures |after| == |before| && Corrects(before[i], after[i], nodes[0], left[|cleaned|])
  {
    hide Inv, Corrected, CalmPass, Rewritten, Harmless, Identified, DueAt, Wants;
    RoundKeepsAll(before, mid, templates, nodes[0], now);
    PassShape(mid, after, order, nodes, options, now);
    PassSpares(rows, swept, after, cleaned, left, [], options, now, |cleaned|);
    assert cleaned[..|cleaned|] == cleaned;
    assert Corrected(before[i], mid[i], true, nodes[0], now);
    if IsServed(before[i], nodes[0]) {
      if Wants(before[i]) {
        RoundLeaves(before[i], mid[i], nodes[0], now);
        assert i !in order;
        PassLeaves(mid, after, order, nodes, options, now, mid[i].tag, 0, |order|);
        NothingNames(before, rows, cleaned, i);
      } else {
        RoundStops(before[i], mid[i], nodes[0], now);
        assert i in order;
        var m :| 0 <= m < |order| && order[m] == i;
        StoppedByItsTurn(mid, after, order, nodes, options, now, m);
      }
    }
  }

  lemma NothingNames(users: seq<User>, rows: seq<Removal>, order: seq<nat>, i: nat)
    requires AllHarmless(users, rows) && i < |users|
    ensures !NamesInbound(rows, order, users[i].tag) && !NamesClient(rows, order, users[i].tag, users[i].identity)
  {
  }

  lemma AllCorrects(before: seq<User>, mid: seq<User>, after: seq<User>, rows: seq<Removal>, swept: seq<Removal>,
                    order: seq<nat>, nodes: seq<Node>, cleaned: seq<nat>, left: seq<Node>, templates: seq<Template>,
                    options: Options, now: int)
    requires BothPasses(before, mid, after, rows, swept, order, nodes, cleaned, left, templates, options, now)
    ensures |after| == |before|
    ensures forall i: nat :: i < |before| && LookedAfter(before[i], templates) ==> Corrects(before[i], after[i], nodes[0], left[|cleaned|])
  {
    hide BothPasses, LookedAfter, Corrects, CalmPass, Rounded;
    BothLengths(before, mid, after, rows, swept, order, nodes, cleaned, left, templates, options, now);
    forall i: nat | i < |before| && LookedAfter(before[i], templates) ensures Corrects(before[i], after[i], nodes[0], left[|cleaned|]) {
      OneCorrected(before, mid, after, rows, swept, order, nodes, cleaned, left, templates, options, now, i);
    }
  }

  lemma BothLengths(before: seq<User>, mid: seq<User>, after: seq<User>, rows: seq<Removal>, swept: seq<Removal>,
                    order: seq<nat>, nodes: seq<Node>, cleaned: seq<nat>, left: seq<Node>, templates: seq<Template>,
                    options: Options, now: int)
    requires BothPasses(before, mid, after, rows, swept, order, nodes, cleaned, left, templates, options, now)
    ensures |after| == |before| && |nodes| > 0 && |left| == |cleaned| + 1
  {
    hide Inv, Corrected, Tried, Chapter, Cleaned, Harmless, Identified;
  }

  lemma DueAreTaken(mid: seq<User>, templates: seq<Template>, later: seq<Template>, order: seq<nat>, now: int)
    requires later == templates
    requires forall i: nat :: i < |mid| && DueAt(mid[i], now) ==> i in order || !Projectable(later, mid[i].template)
    ensures forall i: nat :: i < |mid| && DueAt(mid[i], now) && LooksAfter(templates, mid[i]) ==> i in order
  {
    hide DueAt;
  }

  lemma GateKeepsLooking(r: Registry, probe: Signal, suspected: bool)
    ensures forall u: User :: LooksAfter(GateAfter(r, probe, suspected).templates, u) == LooksAfter(r.templates, u)
  {
    hide GateAfter;
    forall u: User ensures LooksAfter(GateAfter(r, probe, suspected).templates, u) == LooksAfter(r.templates, u) {
      StillReconcilable(r, probe, suspected, u.template);
      assert Reconcilable(r.templates, u.template) == LooksAfter(r.templates, u);
    }
  }

  /** A round and a pass: whoever was settled and served against the facts is not served any more, its inbound gone; whoever
      was settled and served as it should be is so still, on the same port with the same key. */
  method Correct(reconciler: Reconciler, worker: Worker, probe: Signal, now: int)
    requires reconciler.db == worker.db && reconciler.queue == worker.queue && reconciler.adapter == worker.adapter
    requires worker.db.Valid() && worker.queue.Valid() && OptionsOk(worker.options)
    requires AllInv(worker.db.users) && Identified(worker.db.users) && AllHarmless(worker.db.users, worker.queue.rows)
    modifies reconciler, worker, worker.db, worker.queue, worker.adapter`inbounds
    ensures |worker.db.users| == |old(worker.db.users)|
    ensures forall i: nat :: i < |worker.db.users| && LookedAfter(old(worker.db.users)[i], old(worker.db.templates)) ==>
              Corrects(old(worker.db.users)[i], worker.db.users[i], old(worker.adapter.State()), worker.adapter.State())
  {
    hide Inv, GateAfter, Reconcilable, Chronicle, Swept, Grown, EverythingQueued, Rewritten, AllCorrected, Identified, DueAt, Vanished,
         PortsDistinct, QueueOk, LeasableRemoval, Leasable, AllInv, Worsened, Projectable, NoComplaints, AllTried, AllCleaned,
         AllHarmless, Corrects, LooksAfter;
    var db := worker.db;
    ghost var before, earlier, gate, was, n0 := db.users, worker.queue.rows, db.Gate(), reconciler.degraded, worker.adapter.State();
    var round := reconciler.ReconcileOnce(Some(probe), true, {}, now);
    GateKeepsLooking(gate, probe, was || round.value);
    ghost var mid, rows, templates := db.users, worker.queue.rows, db.templates;
    RoundKeepsAll(before, mid, templates, n0, now);
    RoundIsHarmless(before, templates, earlier, n0, rows);
    var _, order, nodes, cleaned, left := worker.Drain([], [], now);
    CalmPassNeverComplains(mid, db.users, order, nodes, worker.options, now);
    DueAreTaken(mid, templates, db.templates, order, now);
    AllCorrects(before, mid, db.users, rows, worker.queue.rows, order, nodes, cleaned, left, templates, worker.options, now);
  }

  // ---- what no round corrects ----

  /** An inbound that should not be there, and has lost its own client and that client's transition identity, stays: the
      round asks for nothing, and no client can be removed from it. */
  lemma ForsakenInboundStays(u: User, v: User, n: Node, now: int, r: Removal)
    requires Inv(u.account.intent) && !u.account.intent.PendingSync() && Corrected(u, v, true, n, now) && !Wants(u)
    requires u.tag in n.inbounds && u.identity !in n.inbounds[u.tag].clients && RotationSafetyId(u.identity) !in n.inbounds[u.tag].clients
    requires !r.whole && r.tag == u.tag && r.identity in n.inbounds[u.tag].clients
    ensures v.account.intent.ops == u.account.intent.ops
    ensures !Removable(r, u.identity, n)
  {
    hide Inv;
  }
}
