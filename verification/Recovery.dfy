/** After the node has lost every inbound, one reconciliation and one undisturbed pass of the worker put back exactly
    what the database wants. */
module Recovery {
  import opened Domain
  import opened Xray
  import opened Synchronizer
  import opened Projection
  import opened Convergence
  import opened Intent
  import opened Quota
  import opened Store
  import opened Worker
  import opened Reconciler
  import opened Drift
  import opened Capability
  import System

  /** Users told apart by their tags, all in the panel's namespace. */
  ghost predicate Identified(users: seq<User>) {
    && (forall i :: 0 <= i < |users| ==> IsPanelNamespace(users[i].tag) && users[i].identity != "")
    && (forall i, j :: 0 <= i < j < |users| ==> users[i].tag != users[j].tag)
  }

  /** Nothing is pending, and every user's template is one the panel looks after. */
  ghost predicate Settled(users: seq<User>, templates: seq<Template>) {
    && AllInv(users)
    && (forall i :: 0 <= i < |users| ==> !users[i].account.intent.PendingSync() && Reconcilable(templates, users[i].template))
  }

  predicate NoPanelTags(n: Node) { forall tag :: tag in n.inbounds ==> !IsPanelNamespace(tag) }

  /** Nobody else is on the user's port; inbounds count only where the client would find them there. */
  predicate Unblocked(u: User, n: Node) {
    u.account.intent.inbound.port !in n.occupied &&
    (n.probes ==> forall tag :: tag in n.inbounds ==> n.inbounds[tag].port != u.account.intent.inbound.port)
  }

  ghost predicate PortsFree(users: seq<User>, n: Node) {
    && (forall i :: 0 <= i < |users| && Wants(users[i]) ==> Unblocked(users[i], n))
    && (n.probes ==> forall i, j :: 0 <= i < j < |users| && Wants(users[i]) && Wants(users[j]) ==>
          users[i].account.intent.inbound.port != users[j].account.intent.inbound.port)
  }

  function OwnInbound(u: User): Inbound {
    Inbound(u.account.intent.inbound.port, map[u.identity := Version(u.account.intent.desiredVersion)])
  }

  /** The node carries what it carried plus one inbound for each user that should have one, on the recorded port, with
      its one client at the desired version. */
  ghost predicate Rebuilt(users: seq<User>, n0: Node, n: Node) {
    && n.occupied == n0.occupied
    && (forall tag :: tag in n.inbounds <==> tag in n0.inbounds || exists i :: 0 <= i < |users| && Wants(users[i]) && users[i].tag == tag)
    && (forall tag :: tag in n0.inbounds ==> tag in n.inbounds && n.inbounds[tag] == n0.inbounds[tag])
    && (forall i :: 0 <= i < |users| && Wants(users[i]) ==> users[i].tag in n.inbounds && n.inbounds[users[i].tag] == OwnInbound(users[i]))
  }

  // ---- the reconciliation ----

  lemma ReconciledAfterRestart(u: User, n: Node, now: int)
    requires Inv(u.account.intent) && !u.account.intent.PendingSync() && !Listens(n, u)
    ensures var a, b := u.account.intent, Reconciled(u, true, n, now);
            && Inv(b) && b.inbound.port == a.inbound.port && b.desiredVersion == a.desiredVersion && b.Desired() == a.Desired()
            && (Wants(u) ==>
                  b.ops == SupersedeOlder(a.ops, a.desiredRevision + 1) +
                           [NewOp(a.desiredRevision + 1, true, Some(a.desiredVersion), Reconcile, now)])
            && (!Wants(u) ==> Quiet(b, now) && !b.PendingSync() && b.projection == Absent)
  {
    hide CredentialsOk, SyncOk, IntentOk, Observe, EnqueueReconcile, Evolves, OpsOk;
    var a := u.account.intent;
    var seen := Observe(a, false);
    SeenAbsent(a, now);
    SameEvolves(a);
    if Wants(u) {
      ReconcileKeeps(seen, Intent.Look(a), now);
      ReconcileQueues(seen, Intent.Look(a), now);
    }
  }

  /** A settled allocation, looked for in vain. */
  lemma NothingOpen(a: Allocation)
    requires Inv(a) && !a.PendingSync()
    ensures a.desiredRevision == a.syncedRevision && a.desiredRevision >= 1
    ensures forall k :: IsOp(a, k) ==> IsClosed(a.ops[k].state)
  {
    hide CredentialsOk, IntentOk;
  }

  lemma SeenAbsent(a: Allocation, now: int)
    requires Inv(a) && !a.PendingSync()
    ensures var seen := Observe(a, false);
            && Inv(seen) && SnapshotOk(seen, Intent.Look(a)) && !a.HasOpenOperation()
            && seen.inbound.port == a.inbound.port && seen.desiredVersion == a.desiredVersion && seen.Desired() == a.Desired()
            && seen.ops == a.ops && seen.desiredRevision == a.desiredRevision
            && Quiet(seen, now) && !seen.PendingSync() && seen.projection == Absent
  {
    hide Inv, Evolves;
    System.IntentFacts(a);
    ObserveKeeps(a, false);
    NothingOpen(a);
  }

  lemma ReconcileQueues(a: Allocation, s: Intent.Snapshot, now: int)
    requires OpsOk(a) && s.revision == a.desiredRevision
    ensures var r := EnqueueReconcile(a, s, now);
            r.Some? ==> && r.value.ops == SupersedeOlder(a.ops, s.revision + 1) + [NewOp(s.revision + 1, s.present, Some(s.version), Reconcile, now)]
                        && r.value.inbound.port == a.inbound.port && r.value.desiredVersion == a.desiredVersion
                        && r.value.Desired() == a.Desired()
  {
  }

  lemma DueAfterRestart(u: User, n: Node, now: int)
    requires Inv(u.account.intent) && !u.account.intent.PendingSync() && !Listens(n, u)
    ensures var v := u.(account := u.account.(intent := Reconciled(u, true, n, now)));
            && (DueAt(v, now) <==> Wants(u))
            && (Wants(u) ==>
                  && |v.account.intent.ops| > 0
                  && v.account.intent.ops[LastOp(v)] ==
                     NewOp(u.account.intent.desiredRevision + 1, true, Some(u.account.intent.desiredVersion), Reconcile, now))
  {
    hide Reconciled, Inv;
    ReconciledAfterRestart(u, n, now);
    var b := Reconciled(u, true, n, now);
    if Wants(u) {
      assert Due(b.ops[|b.ops| - 1], now);
    }
  }

  // ---- the worker ----

  /** Creating one user's inbound on a node that does not have it, undisturbed. */
  lemma CreatedCalmly(u: User, n: Node, options: Options, now: int)
    requires Inv(u.account.intent) && IsPanelNamespace(u.tag) && u.identity != ""
    requires |u.account.intent.ops| > 0 && DueAt(u, now) && OptionsOk(options)
    requires var op := u.account.intent.ops[LastOp(u)]; op.presence && op.reason == Reconcile
    requires u.tag !in n.inbounds && Unblocked(u, n)
    ensures var (b, m) := Handled(u, LastOp(u), n, [], options, now);
            && m == Put(n, u.tag, OwnInbound(u))
            && b.syncedRevision == b.desiredRevision && b.projection == Present && !b.PendingSync()
  {
    var a, k := u.account.intent, LastOp(u);
    hide Handled, Inv, Due, DueAt, Intent.Confirm, LeaseOp, Evolves, Taken;
    LastIsTheDueOne(u, now);
    HandledCalmly(u, k, n, options, now);
    LeasedIsTakenAlone(a, k, options, now);
    LeaseKeeps(a, k, options.owner, now, options.lease);
    ConfirmedIsSynced(Taken(a, k, options, now), k, options.owner);
  }

  /** An undisturbed creation is confirmed. */
  lemma HandledCalmly(u: User, k: nat, n: Node, options: Options, now: int)
    requires IsOp(u.account.intent, k) && u.account.intent.ops[k].presence && u.account.intent.ops[k].reason == Reconcile
    requires IsPanelNamespace(u.tag) && u.identity != ""
    requires u.tag !in n.inbounds && Unblocked(u, n)
    ensures var taken := Taken(u.account.intent, k, options, now);
            Handled(u, k, n, [], options, now) ==
            (Intent.Confirm(taken, k, options.owner, taken.desiredVersion, true).0, Put(n, u.tag, OwnInbound(u)))
  {
    hide Finish, Intent.Confirm;
    CreatesItsInbound(u, k, n);
  }

  lemma LeasedIsTakenAlone(a: Allocation, k: nat, options: Options, now: int)
    requires IsOp(a, k) && Due(a.ops[k], now)
    ensures LeaseOp(a, k, options.owner, now, options.lease) == Some(Taken(a, k, options, now))
    ensures var b := Taken(a, k, options, now);
            IsOp(b, k) && Holds(b, k, options.owner) && b.ops[k].presence == a.ops[k].presence && b.desiredVersion == a.desiredVersion
  {
  }

  lemma CreatesItsInbound(u: User, k: nat, n: Node)
    requires IsOp(u.account.intent, k) && u.account.intent.ops[k].presence && u.account.intent.ops[k].reason == Reconcile
    requires IsPanelNamespace(u.tag) && u.identity != ""
    requires u.tag !in n.inbounds && Unblocked(u, n)
    ensures var w := WorkOf(u, k);
            Finish(w, Start(w), n, []) == (Outcome.Confirm(true, u.account.intent.desiredVersion), Put(n, u.tag, OwnInbound(u)))
  {
    hide Finish;
    CalmCreation(WorkOf(u, k), n);
  }

  lemma ConfirmedIsSynced(a: Allocation, k: nat, owner: nat)
    requires Inv(a) && IsOp(a, k) && Holds(a, k, owner) && a.ops[k].presence
    ensures var b := Intent.Confirm(a, k, owner, a.desiredVersion, true).0;
            b.syncedRevision == b.desiredRevision && b.projection == Present && !b.PendingSync()
  {
    HolderIsCurrent(a, k, owner);
    hide Evolves, CredentialsOk;
    ConfirmKeeps(a, k, owner, Intent.Look(a));
  }

  lemma LastIsTheDueOne(u: User, now: int)
    requires Inv(u.account.intent) && DueAt(u, now)
    ensures |u.account.intent.ops| > 0 && Due(u.account.intent.ops[LastOp(u)], now)
  {
    var a := u.account.intent;
    var k :| 0 <= k < |a.ops| && Due(a.ops[k], now);
    OnlyTheLastIsDue(a, k, now);
  }

  // ---- the whole pass ----

  /** The rows after the reconciliation. */
  ghost predicate AfterRound(before: seq<User>, mid: seq<User>, n: Node, now: int) {
    |mid| == |before| &&
    forall i :: 0 <= i < |before| ==> mid[i] == before[i].(account := before[i].account.(intent := Reconciled(before[i], true, n, now)))
  }

  /** The node after the users in `done` have had their turn. */
  ghost predicate Built(users: seq<User>, n0: Node, n: Node, done: seq<nat>) {
    && n.occupied == n0.occupied && n.probes == n0.probes
    && (forall i :: i in done ==> i < |users| && Wants(users[i]) && users[i].tag in n.inbounds && n.inbounds[users[i].tag] == OwnInbound(users[i]))
    && (forall tag :: tag in n0.inbounds ==> tag in n.inbounds && n.inbounds[tag] == n0.inbounds[tag])
    && (forall tag :: tag in n.inbounds ==> tag in n0.inbounds || exists i :: i in done && i < |users| && users[i].tag == tag)
  }

  lemma BuiltNext(users: seq<User>, n0: Node, n: Node, done: seq<nat>, i: nat)
    requires Built(users, n0, n, done) && Identified(users) && PortsFree(users, n0)
    requires i < |users| && i !in done && users[i].tag !in n0.inbounds && Wants(users[i])
    ensures users[i].tag !in n.inbounds && Unblocked(users[i], n)
    ensures Built(users, n0, Put(n, users[i].tag, OwnInbound(users[i])), done + [i])
  {
    StillUnblocked(users, n0, n, done, i);
    BuiltMore(users, n0, n, done, i);
  }

  lemma StillUnblocked(users: seq<User>, n0: Node, n: Node, done: seq<nat>, i: nat)
    requires Built(users, n0, n, done) && Identified(users) && PortsFree(users, n0)
    requires i < |users| && i !in done && users[i].tag !in n0.inbounds && Wants(users[i])
    ensures users[i].tag !in n.inbounds && Unblocked(users[i], n)
  {
    hide Wants, Listens;
    if n.probes {
      forall tag | tag in n.inbounds ensures n.inbounds[tag].port != users[i].account.intent.inbound.port {
        if tag !in n0.inbounds {
          var j :| j in done && j < |users| && users[j].tag == tag;
          assert j != i && n.inbounds[tag] == OwnInbound(users[j]);
        }
      }
    }
  }

  lemma BuiltMore(users: seq<User>, n0: Node, n: Node, done: seq<nat>, i: nat)
    requires Built(users, n0, n, done) && Identified(users)
    requires i < |users| && i !in done && users[i].tag !in n.inbounds && users[i].tag !in n0.inbounds && Wants(users[i])
    ensures Built(users, n0, Put(n, users[i].tag, OwnInbound(users[i])), done + [i])
  {
    hide Wants, OwnInbound;
    var n' := Put(n, users[i].tag, OwnInbound(users[i]));
    forall tag | tag in n'.inbounds ensures tag in n0.inbounds || exists j :: j in done + [i] && j < |users| && users[j].tag == tag {
      if tag != users[i].tag && tag !in n0.inbounds {
        var j :| j in done && j < |users| && users[j].tag == tag;
        assert j in done + [i];
      } else if tag == users[i].tag {
        assert i in done + [i];
      }
    }
  }

  /** What one chapter of an undisturbed drain does after a reconciliation. */
  lemma ChapterBuilds(u: User, v: User, n0: Node, n: Node, options: Options, now: int)
    requires Inv(u.account.intent) && !u.account.intent.PendingSync() && !Listens(n0, u)
    requires IsPanelNamespace(u.tag) && u.identity != "" && OptionsOk(options)
    requires v == u.(account := u.account.(intent := Reconciled(u, true, n0, now)))
    requires DueAt(v, now) && u.tag !in n.inbounds && Unblocked(u, n)
    ensures |v.account.intent.ops| > 0
    ensures var (b, m) := Handled(v, LastOp(v), n, [], options, now);
            m == Put(n, u.tag, OwnInbound(u)) && b.projection == Present && !b.PendingSync()
    ensures !Complains(v, n, [])
  {
    hide Reconciled, Inv, DueAt, Handled, Finish;
    ReconciledAfterRestart(u, n0, now);
    DueAfterRestart(u, n0, now);
    CreatedCalmly(v, n, options, now);
    CreatesItsInbound(v, LastOp(v), n);
  }

  /** The node grows by one inbound a turn. */
  lemma {:induction false} NodesGrow(before: seq<User>, mid: seq<User>, after: seq<User>, templates: seq<Template>, order: seq<nat>,
                                     nodes: seq<Node>, options: Options, now: int, m: nat)
    requires Settled(before, templates) && Identified(before) && OptionsOk(options)
    requires |nodes| == |order| + 1 && NoPanelTags(nodes[0]) && PortsFree(before, nodes[0])
    requires AfterRound(before, mid, nodes[0], now)
    requires Chronicle(mid, after, order, nodes, [], options, now) && m <= |order|
    ensures Built(before, nodes[0], nodes[m], order[..m])
    ensures forall l :: 0 <= l < m ==> order[l] < |after| && after[order[l]].account.intent.projection == Present &&
                                       !after[order[l]].account.intent.PendingSync()
    ensures forall l :: 0 <= l < m ==> order[l] < |mid| && !Complains(mid[order[l]], nodes[l], Fate([], l))
  {
    hide Complains, Handled, Settled, Identified, PortsFree, AfterRound, Chronicle, Built, NoPanelTags;
    if m > 0 {
      NodesGrow(before, mid, after, templates, order, nodes, options, now, m - 1);
      TurnOf(mid, after, order, nodes, options, now, m);
      OneMore(before, mid, after, templates, order[..m - 1], order[m - 1], nodes[0], nodes[m - 1], nodes[m], options, now);
    } else {
      BuiltNothing(before, nodes[0]);
      assert order[..0] == [];
    }
  }

  lemma BuiltNothing(users: seq<User>, n: Node)
    ensures Built(users, n, n, [])
  {
  }

  lemma TurnOf(mid: seq<User>, after: seq<User>, order: seq<nat>, nodes: seq<Node>, options: Options, now: int, m: nat)
    requires Chronicle(mid, after, order, nodes, [], options, now) && 0 < m <= |order|
    ensures |nodes| == |order| + 1 && Chapter(mid, after, order[m - 1], nodes[m - 1], nodes[m], [], options, now)
    ensures order[m - 1] !in order[..m - 1] && order[..m] == order[..m - 1] + [order[m - 1]]
  {
    hide Chapter;
    assert Chapter(mid, after, order[m - 1], nodes[m - 1], nodes[m], Fate([], m - 1), options, now);
  }

  lemma OneMore(before: seq<User>, mid: seq<User>, after: seq<User>, templates: seq<Template>, done: seq<nat>, i: nat,
                n0: Node, n: Node, n': Node, options: Options, now: int)
    requires Settled(before, templates) && Identified(before) && OptionsOk(options)
    requires NoPanelTags(n0) && PortsFree(before, n0) && AfterRound(before, mid, n0, now)
    requires Built(before, n0, n, done) && i !in done && Chapter(mid, after, i, n, n', [], options, now)
    ensures Built(before, n0, n', done + [i]) && i < |after| == |mid|
    ensures after[i].account.intent.projection == Present && !after[i].account.intent.PendingSync()
    ensures !Complains(mid[i], n, [])
  {
    hide Complains, Handled, Inv, DueAt, OwnInbound, Reconciled, Reconcilable;
    DueAfterRestart(before[i], n0, now);
    BuiltNext(before, n0, n, done, i);
    ChapterBuilds(before[i], mid[i], n0, n, options, now);
  }

  /** Reconciliation and undisturbed drain together. */
  lemma EverythingIsRebuilt(before: seq<User>, mid: seq<User>, after: seq<User>, templates: seq<Template>, order: seq<nat>,
                            nodes: seq<Node>, options: Options, now: int)
    requires Settled(before, templates) && Identified(before) && OptionsOk(options)
    requires |nodes| == |order| + 1 && NoPanelTags(nodes[0]) && PortsFree(before, nodes[0])
    requires AfterRound(before, mid, nodes[0], now)
    requires Chronicle(mid, after, order, nodes, [], options, now)
    requires NoComplaints(mid, order, nodes, []) ==> forall i: nat :: i < |mid| && DueAt(mid[i], now) ==> i in order
    ensures Rebuilt(before, nodes[0], nodes[|order|])
    ensures |after| == |before| && forall i :: 0 <= i < |before| ==> InStep(before[i], after[i])
  {
    hide Inv, Handled, DueAt, OwnInbound, Reconciled, Reconcilable, Complains, PortsFree, Identified, Chronicle, AfterRound, InStep,
         NoPanelTags, Wants, Settled;
    var n := nodes[|order|];
    NodesGrow(before, mid, after, templates, order, nodes, options, now, |order|);
    assert order[..|order|] == order;
    forall i: nat | i < |before|
      ensures |after| == |before| && (Wants(before[i]) <==> i in order) && InStep(before[i], after[i])
    {
      OneUser(before, mid, after, templates, order, nodes, options, now, i);
    }
    SameLength(before, mid, after, order, nodes, options, now);
    forall i | 0 <= i < |before| && Wants(before[i]) ensures before[i].tag in n.inbounds && n.inbounds[before[i].tag] == OwnInbound(before[i]) {
      assert i in order;
    }
  }

  lemma SameLength(before: seq<User>, mid: seq<User>, after: seq<User>, order: seq<nat>, nodes: seq<Node>, options: Options, now: int)
    requires |nodes| == |order| + 1 && AfterRound(before, mid, nodes[0], now) && Chronicle(mid, after, order, nodes, [], options, now)
    ensures |after| == |before|
  {
  }

  /** A user has had a turn exactly if it should listen, and either way its row is as it should be. */
  lemma OneUser(before: seq<User>, mid: seq<User>, after: seq<User>, templates: seq<Template>, order: seq<nat>,
                nodes: seq<Node>, options: Options, now: int, i: nat)
    requires Settled(before, templates) && Identified(before) && |nodes| == |order| + 1 && NoPanelTags(nodes[0])
    requires AfterRound(before, mid, nodes[0], now) && Chronicle(mid, after, order, nodes, [], options, now) && i < |before|
    requires forall i: nat :: i < |mid| && DueAt(mid[i], now) ==> i in order
    requires forall l :: 0 <= l < |order| ==>
               && order[l] < |after| && after[order[l]].account.intent.projection == Present
               && !after[order[l]].account.intent.PendingSync()
    ensures |after| == |before| && (Wants(before[i]) <==> i in order) && InStep(before[i], after[i])
  {
    hide Inv, Handled, DueAt, Reconciled, Reconcilable;
    DueAfterRestart(before[i], nodes[0], now);
    ReconciledAfterRestart(before[i], nodes[0], now);
    if i in order {
      var l :| 0 <= l < |order| && order[l] == i;
      assert Chapter(mid, after, order[l], nodes[l], nodes[l + 1], Fate([], l), options, now);
    }
  }

  /** Nothing is pending any more, and what is recorded is what is wanted. */
  predicate InStep(u: User, v: User) {
    !v.account.intent.PendingSync() && v.account.intent.projection == (if Wants(u) then Present else Absent)
  }

  lemma NothingToSweep(users: seq<User>, templates: seq<Template>, earlier: seq<Removal>, n: Node, rows: seq<Removal>)
    requires Grown(users, templates, earlier, n, rows) && NoPanelTags(n)
    requires forall k :: 0 <= k < |earlier| ==> !Current(earlier[k])
    ensures forall k :: 0 <= k < |rows| ==> !IsOpen(rows[k])
  {
    forall k | 0 <= k < |rows| ensures !IsOpen(rows[k]) {
      NothingWarranted(users, templates, earlier, n, rows[k]);
    }
  }

  lemma NothingWarranted(users: seq<User>, templates: seq<Template>, earlier: seq<Removal>, n: Node, r: Removal)
    requires NoPanelTags(n) && forall k :: 0 <= k < |earlier| ==> !Current(earlier[k])
    ensures !Warranted(users, templates, earlier, n, r)
  {
  }

  lemma AllProjectable(before: seq<User>, mid: seq<User>, templates: seq<Template>, n: Node, now: int)
    requires Settled(before, templates) && AfterRound(before, mid, n, now)
    ensures forall i :: 0 <= i < |mid| ==> Projectable(templates, mid[i].template)
  {
  }

  /** What the two passes leave, put together. */
  lemma Concluded(before: seq<User>, mid: seq<User>, after: seq<User>, templates: seq<Template>, later: seq<Template>, order: seq<nat>,
                  nodes: seq<Node>, options: Options, now: int)
    requires Settled(before, templates) && Identified(before) && OptionsOk(options)
    requires |nodes| == |order| + 1 && NoPanelTags(nodes[0]) && PortsFree(before, nodes[0])
    requires AfterRound(before, mid, nodes[0], now)
    requires Chronicle(mid, after, order, nodes, [], options, now)
    requires NoComplaints(mid, order, nodes, []) ==> later == templates
    requires forall i: nat :: i < |mid| && DueAt(mid[i], now) ==> i in order || !Projectable(later, mid[i].template)
    ensures Rebuilt(before, nodes[0], nodes[|order|])
    ensures |after| == |before| && forall i :: 0 <= i < |before| ==> InStep(before[i], after[i])
  {
    AllProjectable(before, mid, templates, nodes[0], now);
    hide Settled, Identified, PortsFree, AfterRound, Chronicle, DueAt, NoComplaints, Rebuilt, InStep, Projectable, NoPanelTags;
    EverythingIsRebuilt(before, mid, after, templates, order, nodes, options, now);
  }

  lemma NothingIsLeasable(rows: seq<Removal>, templates: seq<Template>, now: int)
    requires forall k :: 0 <= k < |rows| ==> !IsOpen(rows[k])
    ensures forall k: nat :: !LeasableRemoval(rows, templates, k, now)
  {
  }

  lemma StillReconcilable(r: Registry, probe: Signal, suspected: bool, t: nat)
    ensures Reconcilable(GateAfter(r, probe, suspected).templates, t) == Reconcilable(r.templates, t)
  {
  }

  lemma RoundOfSettled(before: seq<User>, mid: seq<User>, r: Registry, probe: Signal, suspected: bool, n: Node, now: int)
    requires Settled(before, r.templates) && Rewritten(before, mid, GateAfter(r, probe, suspected).templates, n, now)
    ensures AfterRound(before, mid, n, now) && Settled(before, GateAfter(r, probe, suspected).templates)
  {
    hide Inv, Reconciled, GateAfter, Reconcilable;
    forall i | 0 <= i < |before| ensures Reconcilable(GateAfter(r, probe, suspected).templates, before[i].template) {
      StillReconcilable(r, probe, suspected, before[i].template);
    }
  }

  lemma RoundKeepsInv(before: seq<User>, mid: seq<User>, templates: seq<Template>, n: Node, now: int)
    requires Settled(before, templates) && AfterRound(before, mid, n, now) && NoPanelTags(n)
    ensures AllInv(mid)
  {
    hide Inv, Reconciled, Reconcilable;
    forall i | 0 <= i < |before| ensures Inv(mid[i].account.intent) { ReconciledAfterRestart(before[i], n, now); }
  }

  lemma Inhabited(order: seq<nat>)
    ensures order != [] ==> exists k: nat :: k in order
  {
    if order != [] { assert order[0] in order; }
  }

  /** The panel after the node came back empty. */
  method Recover(reconciler: Reconciler, worker: Worker, probe: Signal, now: int)
    requires reconciler.db == worker.db && reconciler.queue == worker.queue && reconciler.adapter == worker.adapter
    requires worker.db.Valid() && worker.queue.Valid() && OptionsOk(worker.options)
    requires Settled(worker.db.users, worker.db.templates) && Identified(worker.db.users)
    requires forall k :: 0 <= k < |worker.queue.rows| ==> !Current(worker.queue.rows[k])
    requires NoPanelTags(worker.adapter.State()) && PortsFree(worker.db.users, worker.adapter.State())
    modifies reconciler, worker, worker.db, worker.queue, worker.adapter`inbounds
    ensures Rebuilt(old(worker.db.users), old(worker.adapter.State()), worker.adapter.State())
    ensures |worker.db.users| == |old(worker.db.users)|
    ensures forall i :: 0 <= i < |worker.db.users| ==> InStep(old(worker.db.users)[i], worker.db.users[i])
  {
    hide Inv, Reconciled, GateAfter, Reconcilable, Rebuilt, InStep, Chronicle, Swept, Grown, EverythingQueued, Rewritten,
         AfterRound, Settled, Identified, PortsFree, NoPanelTags, DueAt, Vanished, PortsDistinct, QueueOk, LeasableRemoval, Leasable,
         AllInv, Worsened, Projectable, NoComplaints;
    var db := worker.db;
    ghost var before, earlier, gate, was, n0 := db.users, worker.queue.rows, db.Gate(), reconciler.degraded, worker.adapter.State();
    var round := reconciler.ReconcileOnce(Some(probe), true, {}, now);
    ghost var mid := db.users;
    RoundOfSettled(before, mid, gate, probe, was || round.value, n0, now);
    RoundKeepsInv(before, mid, db.templates, n0, now);
    NothingToSweep(before, db.templates, earlier, n0, worker.queue.rows);
    ghost var templates, rows := db.templates, worker.queue.rows;
    var _, order, nodes, swept, _ := worker.Drain([], [], now);
    Concluded(before, mid, db.users, templates, db.templates, order, nodes, worker.options, now);
    NothingIsLeasable(rows, db.templates, now);
    Inhabited(swept);
  }
}
