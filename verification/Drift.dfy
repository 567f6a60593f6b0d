/** The queue of drift removals: unknown inbounds and unknown clients that must leave the panel's namespace. */
module Drift {
  import opened Domain
  import opened Intent
  import opened Capability
  import opened Store

  /** `whole` removes the inbound itself, otherwise one client of it. A removal that belongs to no template has None.
      `supersededBy` points at the later removal that took a failed one's place. */
  datatype Removal = Removal(template: Option<nat>, tag: string, whole: bool, identity: string, state: OpState,
                             attempts: nat, nextAttempt: int, createdAt: int, lease: Option<Lease>, supersededBy: Option<nat>)

  predicate IsOpen(r: Removal) { r.state == Pending || r.state == OpState.Leased || r.state == RetryWait }

  predicate IsFailed(r: Removal) { r.state == PermanentFailed && r.supersededBy.None? }

  /** The key leaves the tag out. */
  predicate HasKey(r: Removal, template: Option<nat>, identity: string) { r.template == template && r.identity == identity }

  predicate HasOpen(rows: seq<Removal>, template: Option<nat>, identity: string) {
    exists k :: 0 <= k < |rows| && HasKey(rows[k], template, identity) && IsOpen(rows[k])
  }

  function NewRemoval(template: Option<nat>, tag: string, whole: bool, identity: string, now: int): Removal {
    Removal(template, tag, whole, identity, Pending, 0, now, now, None, None)
  }

  function SupersedeFailed(rows: seq<Removal>, template: Option<nat>, identity: string, later: nat): (r: seq<Removal>)
    ensures |r| == |rows|
    ensures forall k :: 0 <= k < |rows| ==>
              r[k] == if HasKey(rows[k], template, identity) && IsFailed(rows[k]) then rows[k].(supersededBy := Some(later)) else rows[k]
  {
    seq(|rows|, k requires 0 <= k < |rows| =>
      if HasKey(rows[k], template, identity) && IsFailed(rows[k]) then rows[k].(supersededBy := Some(later)) else rows[k])
  }

  /** One open removal per key; a new one takes the place of every failure under its key. */
  function Enqueue(rows: seq<Removal>, template: Option<nat>, tag: string, whole: bool, identity: string, now: int): seq<Removal> {
    if HasOpen(rows, template, identity) then rows
    else SupersedeFailed(rows, template, identity, |rows|) + [NewRemoval(template, tag, whole, identity, now)]
  }

  predicate DueRemoval(r: Removal, now: int) {
    ((r.state == Pending || r.state == RetryWait) && r.nextAttempt <= now) ||
    (r.state == OpState.Leased && r.lease.Some? && r.lease.value.until <= now)
  }

  /** Only the removal of a client waits for its template. */
  predicate LeasableRemoval(rows: seq<Removal>, templates: seq<Template>, k: nat, now: int) {
    k < |rows| && DueRemoval(rows[k], now) &&
    (rows[k].whole || (rows[k].template.Some? && Projectable(templates, rows[k].template.value)))
  }

  predicate Earlier(r: Removal, s: Removal) {
    r.nextAttempt < s.nextAttempt || (r.nextAttempt == s.nextAttempt && r.createdAt <= s.createdAt)
  }

  predicate HeldBy(r: Removal, owner: nat) {
    r.state == OpState.Leased && r.lease.Some? && r.lease.value.owner == owner
  }

  datatype Finding = Gone | Again(attempts: nat, next: int) | Hopeless

  function Finished(r: Removal, owner: nat, f: Finding): Removal {
    if !HeldBy(r, owner) then r
    else match f
      case Gone => r.(state := Succeeded, lease := None)
      case Again(attempts, next) => r.(state := RetryWait, attempts := attempts, nextAttempt := next, lease := None)
      case Hopeless => r.(state := PermanentFailed, lease := None)
  }

  // ---- the invariant ----

  predicate Current(r: Removal) { IsOpen(r) || IsFailed(r) }

  ghost predicate KeysDistinct(rows: seq<Removal>) {
    forall j, k :: 0 <= j < k < |rows| && Current(rows[j]) && Current(rows[k]) ==>
      !HasKey(rows[k], rows[j].template, rows[j].identity)
  }

  ghost predicate PointsForward(rows: seq<Removal>) {
    forall k :: 0 <= k < |rows| && rows[k].supersededBy.Some? ==>
      && rows[k].state == PermanentFailed && k < rows[k].supersededBy.value < |rows|
      && HasKey(rows[rows[k].supersededBy.value], rows[k].template, rows[k].identity)
  }

  /** Per key at most one removal is open or an unreplaced failure; replacements point forward, under the same key. */
  ghost predicate QueueOk(rows: seq<Removal>) {
    && KeysDistinct(rows) && PointsForward(rows)
    && (forall k :: 0 <= k < |rows| ==> (rows[k].state == OpState.Leased <==> rows[k].lease.Some?))
  }

  lemma EnqueuedAlready(rows: seq<Removal>, template: Option<nat>, tag: string, whole: bool, identity: string, now: int)
    requires HasOpen(rows, template, identity)
    ensures Enqueue(rows, template, tag, whole, identity, now) == rows
  {
    hide HasOpen;
  }

  lemma EnqueueIsQueue(rows: seq<Removal>, template: Option<nat>, tag: string, whole: bool, identity: string, now: int)
    requires QueueOk(rows) && !HasOpen(rows, template, identity)
    ensures var r := Enqueue(rows, template, tag, whole, identity, now);
            && QueueOk(r) && |r| == |rows| + 1 && r[|rows|] == NewRemoval(template, tag, whole, identity, now)
            && (forall k :: 0 <= k < |rows| && IsOpen(rows[k]) ==> r[k] == rows[k])
  {
    hide KeysDistinct, PointsForward;
    EnqueueKeepsKeys(rows, template, tag, whole, identity, now);
    EnqueuePointsForward(rows, template, tag, whole, identity, now);
  }

  lemma EnqueueKeepsKeys(rows: seq<Removal>, template: Option<nat>, tag: string, whole: bool, identity: string, now: int)
    requires KeysDistinct(rows) && !HasOpen(rows, template, identity)
    ensures KeysDistinct(Enqueue(rows, template, tag, whole, identity, now))
  {
  }

  lemma EnqueuePointsForward(rows: seq<Removal>, template: Option<nat>, tag: string, whole: bool, identity: string, now: int)
    requires PointsForward(rows) && !HasOpen(rows, template, identity)
    ensures PointsForward(Enqueue(rows, template, tag, whole, identity, now))
  {
  }

  lemma EnqueueKeepsQueue(rows: seq<Removal>, template: Option<nat>, tag: string, whole: bool, identity: string, now: int)
    requires QueueOk(rows)
    ensures var r := Enqueue(rows, template, tag, whole, identity, now);
            && QueueOk(r) && HasOpen(r, template, identity) && |rows| <= |r|
            && (forall t, id :: HasOpen(rows, t, id) ==> HasOpen(r, t, id))
  {
    hide Enqueue;
    var r := Enqueue(rows, template, tag, whole, identity, now);
    if HasOpen(rows, template, identity) {
      EnqueuedAlready(rows, template, tag, whole, identity, now);
    } else {
      EnqueueIsQueue(rows, template, tag, whole, identity, now);
      assert IsOpen(r[|rows|]) && HasKey(r[|rows|], template, identity);
      forall t, id | HasOpen(rows, t, id) ensures HasOpen(r, t, id) {
        var k :| 0 <= k < |rows| && HasKey(rows[k], t, id) && IsOpen(rows[k]);
        assert r[k] == rows[k];
      }
    }
  }

  lemma FinishKeepsQueue(rows: seq<Removal>, k: nat, owner: nat, f: Finding)
    requires QueueOk(rows) && k < |rows|
    ensures QueueOk(rows[k := Finished(rows[k], owner, f)])
    ensures !HeldBy(rows[k], owner) ==> rows[k := Finished(rows[k], owner, f)] == rows
  {
  }

  /** Since the key leaves the tag out, an unknown client that sits in two inbounds of one template gets one removal at
      a time: after asking, its removal from this inbound is under way exactly when no other inbound's came first. */
  lemma OneInboundAtATime(rows: seq<Removal>, template: Option<nat>, tag: string, identity: string, now: int)
    requires QueueOk(rows)
    ensures var r := Enqueue(rows, template, tag, false, identity, now);
            (exists k :: 0 <= k < |r| && r[k].tag == tag && HasKey(r[k], template, identity) && IsOpen(r[k])) <==>
            (forall k :: 0 <= k < |rows| && HasKey(rows[k], template, identity) && IsOpen(rows[k]) ==> rows[k].tag == tag)
  {
    var r := Enqueue(rows, template, tag, false, identity, now);
    if HasOpen(rows, template, identity) {
      var k :| 0 <= k < |rows| && HasKey(rows[k], template, identity) && IsOpen(rows[k]);
      assert forall j :: 0 <= j < |rows| && HasKey(rows[j], template, identity) && IsOpen(rows[j]) ==> j == k;
    } else {
      assert r[|rows|].tag == tag && HasKey(r[|rows|], template, identity) && IsOpen(r[|rows|]);
    }
  }

  lemma LeasingKeepsQueue(rows: seq<Removal>, k: nat, lease: Lease)
    requires QueueOk(rows) && k < |rows| && IsOpen(rows[k])
    ensures QueueOk(rows[k := rows[k].(state := OpState.Leased, lease := Some(lease))])
  {
  }

  class Removals {
    var rows: seq<Removal>

    ghost predicate Valid()
      reads this
    {
      QueueOk(rows)
    }

    constructor ()
      ensures Valid() && rows == []
    {
      rows := [];
    }

    method EnqueueDriftRemoval(template: Option<nat>, tag: string, whole: bool, identity: string, now: int) returns (created: bool)
      requires Valid()
      modifies this
      ensures Valid()
      ensures rows == Enqueue(old(rows), template, tag, whole, identity, now)
      ensures created <==> !HasOpen(old(rows), template, identity)
    {
      hide QueueOk;
      EnqueueKeepsQueue(rows, template, tag, whole, identity, now);
      for k := 0 to |rows|
        invariant forall j :: 0 <= j < k ==> !(HasKey(rows[j], template, identity) && IsOpen(rows[j]))
      {
        if HasKey(rows[k], template, identity) && IsOpen(rows[k]) {
          return false;
        }
      }
      var tx := rows + [NewRemoval(template, tag, whole, identity, now)];
      for k := 0 to |rows|
        invariant |tx| == |rows| + 1 && tx[|rows|] == NewRemoval(template, tag, whole, identity, now)
        invariant forall j :: 0 <= j < k ==> tx[j] == SupersedeFailed(rows, template, identity, |rows|)[j]
        invariant forall j :: k <= j < |rows| ==> tx[j] == rows[j]
      {
        if HasKey(tx[k], template, identity) && IsFailed(tx[k]) {
          tx := tx[k := tx[k].(supersededBy := Some(|rows|))];
        }
      }
      assert tx[..|rows|] == SupersedeFailed(rows, template, identity, |rows|);
      assert tx == tx[..|rows|] + [tx[|rows|]];
      rows := tx;
      return true;
    }

    /** The removal due first; whether its lease had run out in other hands comes with it. */
    method LeaseDueDriftRemoval(templates: seq<Template>, owner: nat, now: int, lease: int) returns (work: Option<(nat, bool)>)
      requires Valid()
      modifies this
      ensures Valid()
      ensures work.None? ==> rows == old(rows) && forall k: nat :: !LeasableRemoval(rows, templates, k, now)
      ensures work.Some? ==>
                var (k, reclaimed) := work.value;
                && LeasableRemoval(old(rows), templates, k, now)
                && (forall j: nat :: LeasableRemoval(old(rows), templates, j, now) ==> Earlier(old(rows)[k], old(rows)[j]))
                && rows == old(rows)[k := old(rows)[k].(state := OpState.Leased, lease := Some(Lease(owner, now + lease)))]
                && reclaimed == (old(rows)[k].state == OpState.Leased)
                && (forall j: nat :: LeasableRemoval(old(rows), templates, j, now) ==>
                      old(rows)[k].nextAttempt < old(rows)[j].nextAttempt ||
                      (old(rows)[k].nextAttempt == old(rows)[j].nextAttempt && old(rows)[k].createdAt <= old(rows)[j].createdAt))
    {
      hide QueueOk;
      var best: Option<nat> := None;
      for k := 0 to |rows|
        invariant best.Some? ==> LeasableRemoval(rows, templates, best.value, now)
        invariant forall j: nat :: j < k && LeasableRemoval(rows, templates, j, now) ==> best.Some? && Earlier(rows[best.value], rows[j])
      {
        if LeasableRemoval(rows, templates, k, now) && (best.None? || !Earlier(rows[best.value], rows[k])) {
          best := Some(k);
        }
      }
      if best.None? { return None; }
      var k := best.value;
      var reclaimed := rows[k].state == OpState.Leased;
      LeasingKeepsQueue(rows, k, Lease(owner, now + lease));
      rows := rows[k := rows[k].(state := OpState.Leased, lease := Some(Lease(owner, now + lease)))];
      return Some((k, reclaimed));
    }

    method RenewDriftRemovalLease(k: nat, owner: nat, now: int, lease: int) returns (held: bool)
      requires Valid() && k < |rows|
      modifies this
      ensures Valid() && held == HeldBy(old(rows)[k], owner)
      ensures rows == if held then old(rows)[k := old(rows)[k].(lease := Some(Lease(owner, now + lease)))] else old(rows)
    {
      held := HeldBy(rows[k], owner);
      if held { rows := rows[k := rows[k].(lease := Some(Lease(owner, now + lease)))]; }
    }

    /** Completing, rescheduling or failing a removal: void for anybody but the holder. */
    method FinishDriftRemoval(k: nat, owner: nat, f: Finding)
      requires Valid() && k < |rows|
      modifies this
      ensures Valid() && rows == old(rows)[k := Finished(old(rows)[k], owner, f)]
    {
      FinishKeepsQueue(rows, k, owner, f);
      if !HeldBy(rows[k], owner) { return; }
      var r := rows[k].(lease := None);
      match f {
        case Gone => r := r.(state := Succeeded);
        case Again(attempts, next) => r := r.(state := RetryWait, attempts := attempts, nextAttempt := next);
        case Hopeless => r := r.(state := PermanentFailed);
      }
      rows := rows[k := r];
    }
  }
}
