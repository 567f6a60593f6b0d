/** The rows of one allocation that carry intent, and every transaction that touches them. A transaction that
    violates a constraint or loses its compare-and-set is None: nothing is written. */
module Intent {
  import opened Domain

  datatype OpState = Pending | Leased | RetryWait | Succeeded | Superseded | PermanentFailed

  datatype Lease = Lease(owner: nat, until: int)

  /** A row of synchronization_operations; its place in the sequence stands for its identifier. */
  datatype Op = Op(revision: int, presence: bool, version: Option<int>, reason: Reason, state: OpState,
                   attempts: nat, nextAttempt: int, createdAt: int, lease: Option<Lease>)

  datatype Projection = Unknown | Awaiting | Present | Absent | Error

  datatype CredentialState = PendingKey | ActiveKey | Retired | Destroyed

  datatype Credential = Credential(state: CredentialState, key: Option<int>)

  datatype InboundRow = InboundRow(port: int, desired: bool, observed: Option<bool>, released: bool)

  datatype Allocation = Allocation(
    lifecycle: Lifecycle, userRevision: int, adminEnabled: bool, quota: QuotaState,
    projection: Projection, observed: Option<bool>,
    desiredRevision: int, syncedRevision: int, desiredVersion: int, syncedVersion: Option<int>,
    ops: seq<Op>, credentials: map<int, Credential>, inbound: InboundRow)
  {
    predicate Desired() { InboundDesiredPresent(lifecycle, adminEnabled, quota) }

    predicate PendingSync() {
      desiredRevision != syncedRevision || projection == Unknown || projection == Awaiting || projection == Error
    }

    predicate HasOpenOperation() {
      exists i :: 0 <= i < |ops| && ops[i].state in {Pending, Leased, RetryWait}
    }

    predicate HasOpenRotation() {
      exists i :: 0 <= i < |ops| && ops[i].reason == Rotate && ops[i].state in {Pending, Leased, RetryWait}
    }
  }

  /** What a service read outside the transaction it is about to run. */
  datatype Snapshot = Snapshot(revision: int, userRevision: int, present: bool, version: int)

  function Look(a: Allocation): Snapshot {
    Snapshot(a.desiredRevision, a.userRevision, a.Desired(), a.desiredVersion)
  }

  // ---- writing intent ----

  predicate IsClosed(s: OpState) { s == Succeeded || s == Superseded }

  function SupersedeOlder(ops: seq<Op>, revision: int): (r: seq<Op>)
    ensures |r| == |ops|
    ensures forall i :: 0 <= i < |ops| ==>
              r[i] == if ops[i].revision < revision && !IsClosed(ops[i].state)
                      then ops[i].(state := Superseded, lease := None) else ops[i]
  {
    seq(|ops|, i requires 0 <= i < |ops| =>
      if ops[i].revision < revision && !IsClosed(ops[i].state) then ops[i].(state := Superseded, lease := None) else ops[i])
  }

  function NewOp(revision: int, presence: bool, version: Option<int>, reason: Reason, now: int): Op {
    Op(revision, presence, version, reason, Pending, 0, now, now, None)
  }

  /** The only writer of "should this inbound listen"; one operation per allocation and revision. */
  function InsertOperation(a: Allocation, op: Op): Option<Allocation> {
    if exists i :: 0 <= i < |a.ops| && a.ops[i].revision == op.revision then None
    else Some(a.(inbound := if a.inbound.released then a.inbound else a.inbound.(desired := op.presence),
                 ops := a.ops + [op]))
  }

  /** Supersedes what is older, inserts the operation and moves the desired revision to it. */
  function Intend(a: Allocation, op: Op): Option<Allocation> {
    match InsertOperation(a.(ops := SupersedeOlder(a.ops, op.revision)), op)
    case None => None
    case Some(b) => Some(b.(desiredRevision := op.revision, projection := Awaiting))
  }

  function ApplyDecision(a: Allocation, d: Decision, adminEnabled: bool, now: int): Option<Allocation>
    requires d.NeedsOperation() ==> d.reason.Some?
  {
    if d.NeedsOperation() then
      match Intend(a, NewOp(a.desiredRevision + 1, d.willBePresent, Some(a.desiredVersion), d.reason.value, now))
      case None => None
      case Some(b) => Some(b.(adminEnabled := adminEnabled, quota := d.quota))
    else Some(a.(adminEnabled := adminEnabled, quota := d.quota))
  }

  /** Every decision path: facts are re-read inside the transaction. */
  function Decide(a: Allocation, adminEnabled: bool, exceeded: bool, now: int): Option<Allocation> {
    ApplyDecision(a, DecideTransition(a.lifecycle, a.adminEnabled, a.quota, adminEnabled, exceeded), adminEnabled, now)
  }

  /** The user row's own compare-and-set. */
  function BumpUser(a: Allocation, expected: int): Option<Allocation> {
    if a.userRevision == expected && a.lifecycle == Active then Some(a.(userRevision := a.userRevision + 1)) else None
  }

  function EditUser(a: Allocation, expected: int, adminEnabled: bool, exceeded: bool, now: int): Option<Allocation> {
    match BumpUser(a, expected)
    case None => None
    case Some(b) => Decide(b, adminEnabled, exceeded, now)
  }

  predicate HasPendingKey(a: Allocation) {
    exists v :: v in a.credentials && a.credentials[v].state == PendingKey
  }

  function RotateCredential(a: Allocation, s: Snapshot, key: int, now: int): Option<Allocation> {
    match BumpUser(a, s.userRevision)
    case None => None
    case Some(b) =>
      if HasPendingKey(b) || s.version + 1 in b.credentials then None
      else
        var c := b.(credentials := b.credentials[s.version + 1 := Credential(PendingKey, Some(key))]);
        match Intend(c, NewOp(s.revision + 1, s.present, Some(s.version + 1), Rotate, now))
        case None => None
        case Some(d) => Some(d.(desiredVersion := s.version + 1))
  }

  /** `free`: the new port is in the template's pool and no unreleased row on the same address holds it. */
  function ChangePort(a: Allocation, s: Snapshot, oldPort: int, newPort: int, free: bool, now: int): Option<Allocation> {
    match BumpUser(a, s.userRevision)
    case None => None
    case Some(b) =>
      if !free || b.inbound.released || b.inbound.port != oldPort then None
      else
        var c := b.(inbound := b.inbound.(port := newPort, observed := Some(false)));
        match Intend(c, NewOp(s.revision + 1, s.present, Some(s.version), PortChange, now))
        case None => None
        case Some(d) => Some(d.(observed := Some(false)))
  }

  function SoftDelete(a: Allocation, s: Snapshot, now: int): Option<Allocation> {
    match BumpUser(a, s.userRevision)
    case None => None
    case Some(b) =>
      match Intend(b.(lifecycle := Deleted), NewOp(s.revision + 1, false, None, Delete, now))
      case None => None
      case Some(c) => Some(c.(adminEnabled := false))
  }

  /** The reconciler acts on a snapshot, guarded by the desired revision it saw. */
  function EnqueueReconcile(a: Allocation, s: Snapshot, now: int): Option<Allocation> {
    if a.desiredRevision != s.revision then None
    else Intend(a, NewOp(s.revision + 1, s.present, Some(s.version), Reconcile, now))
  }

  /** What the reconciler saw, on the allocation and, by a statement of its own, on the inbound. */
  function RecordObservation(a: Allocation, present: bool): Allocation {
    a.(observed := Some(present),
       projection := if a.desiredRevision == a.syncedRevision then if present then Present else Absent else a.projection)
  }

  function ConfirmInboundPresence(a: Allocation, present: bool): Allocation {
    a.(inbound := if a.inbound.released then a.inbound else a.inbound.(observed := Some(present)))
  }

  function Observe(a: Allocation, present: bool): Allocation {
    ConfirmInboundPresence(RecordObservation(a, present), present)
  }

  /** The rows a new user starts with. */
  function Created(port: int, key: int, now: int): Allocation {
    Allocation(Active, 0, true, WithinLimit, Awaiting, None, 1, 0, 1, None,
               [NewOp(1, true, Some(1), Create, now)], map[1 := Credential(PendingKey, Some(key))],
               InboundRow(port, true, None, false))
  }

  // ---- the worker's side ----

  predicate Due(op: Op, now: int) {
    ((op.state == Pending || op.state == RetryWait) && op.nextAttempt <= now) ||
    (op.state == Leased && op.lease.Some? && op.lease.value.until <= now)
  }

  predicate IsOp(a: Allocation, i: int) { 0 <= i < |a.ops| }

  predicate Holds(a: Allocation, i: int, owner: nat)
    requires IsOp(a, i)
  {
    a.ops[i].state == Leased && a.ops[i].lease.Some? && a.ops[i].lease.value.owner == owner
  }

  function SetOp(a: Allocation, i: int, op: Op): Allocation
    requires IsOp(a, i)
  {
    a.(ops := a.ops[i := op])
  }

  function LeaseOp(a: Allocation, i: int, owner: nat, now: int, duration: int): Option<Allocation>
    requires IsOp(a, i)
  {
    if !Due(a.ops[i], now) then None
    else Some(SetOp(a, i, a.ops[i].(state := Leased, lease := Some(Lease(owner, now + duration)))))
  }

  function Renew(a: Allocation, i: int, owner: nat, now: int, duration: int): Option<Allocation>
    requires IsOp(a, i)
  {
    if Holds(a, i, owner) && a.ops[i].revision == a.desiredRevision
    then Some(SetOp(a, i, a.ops[i].(lease := Some(Lease(owner, now + duration)))))
    else None
  }

  function CloseAs(a: Allocation, i: int, state: OpState): Allocation
    requires IsOp(a, i)
  {
    SetOp(a, i, a.ops[i].(state := state, lease := None))
  }

  function DestroyBelow(credentials: map<int, Credential>, version: int): map<int, Credential> {
    map v | v in credentials :: if v < version then Credential(Destroyed, None) else credentials[v]
  }

  function Activate(credentials: map<int, Credential>, version: int): map<int, Credential> {
    if version in credentials && credentials[version].state == PendingKey
    then credentials[version := credentials[version].(state := ActiveKey)]
    else credentials
  }

  /** Confirms that the node is as operation i wanted it. False: the result is void. */
  function Confirm(a: Allocation, i: int, owner: nat, version: int, present: bool): (Allocation, bool)
    requires IsOp(a, i)
  {
    if !Holds(a, i, owner) then (a, false)
    else if a.desiredRevision != a.ops[i].revision then (CloseAs(a, i, Superseded), false)
    else
      var wipe := !present && a.lifecycle == Deleted;
      var credentials :=
        if present then Activate(DestroyBelow(a.credentials, version), version)
        else if wipe then map v | v in a.credentials :: Credential(Destroyed, None)
        else a.credentials;
      var row := if wipe && !a.inbound.released then a.inbound.(released := true, desired := false, observed := Some(false)) else a.inbound;
      var inbound := if row.released then row else row.(observed := Some(present));
      var b := a.(credentials := credentials, inbound := inbound,
                  projection := if present then Present else Absent, observed := Some(present),
                  syncedRevision := a.ops[i].revision, syncedVersion := if present then Some(version) else None);
      (CloseAs(b, i, Succeeded), true)
  }

  /** What a worker's failed attempt writes, if it still holds the lease and the intent is still current. */
  datatype Verdict = Reschedule(attempts: nat, next: int) | Fail

  function FinishLeased(a: Allocation, i: int, owner: nat, v: Verdict): Allocation
    requires IsOp(a, i)
  {
    if !Holds(a, i, owner) then a
    else if a.ops[i].revision != a.desiredRevision then CloseAs(a, i, Superseded)
    else match v
      case Reschedule(attempts, next) =>
        SetOp(a, i, a.ops[i].(state := RetryWait, attempts := attempts, nextAttempt := next, lease := None)).(projection := Awaiting)
      case Fail => CloseAs(a, i, PermanentFailed).(projection := Error)
  }

  // ---- the invariant ----

  /** Revisions are 1, 2, ..., desired; only the last operation can still be open. */
  ghost predicate OpsOk(a: Allocation) {
    && |a.ops| > 0 && a.desiredRevision == |a.ops|
    && (forall i :: 0 <= i < |a.ops| ==> a.ops[i].revision == i + 1)
    && (forall i :: 0 <= i < |a.ops| - 1 ==> IsClosed(a.ops[i].state))
    && (forall i :: 0 <= i < |a.ops| ==> (a.ops[i].state == Leased <==> a.ops[i].lease.Some?))
    && a.ops[|a.ops| - 1].state != Superseded
  }

  function Last(a: Allocation): Op
    requires OpsOk(a)
  {
    a.ops[|a.ops| - 1]
  }

  /** The last operation and the unreleased inbound row both say what the facts say. */
  ghost predicate IntentOk(a: Allocation)
    requires OpsOk(a)
  {
    && Last(a).presence == a.Desired()
    && (Last(a).version == Some(a.desiredVersion) || (Last(a).version == None && Last(a).reason == Delete))
    && (a.inbound.released || a.inbound.desired == a.Desired())
    && (a.lifecycle == Deleted ==> !a.adminEnabled)
    && (a.inbound.released ==> a.lifecycle == Deleted)
  }

  ghost predicate SyncOk(a: Allocation)
    requires OpsOk(a)
  {
    && 0 <= a.syncedRevision <= a.desiredRevision
    && (a.syncedRevision == a.desiredRevision <==> Last(a).state == Succeeded)
    && (if a.syncedRevision == a.desiredRevision
        then (a.projection == Present || a.projection == Absent) &&
             a.syncedVersion == if Last(a).presence then Some(a.desiredVersion) else None
        else a.projection == if Last(a).state == PermanentFailed then Error else Awaiting)
  }

  ghost predicate CredentialsOk(a: Allocation) {
    && a.desiredVersion >= 1
    && (forall v :: v in a.credentials <==> 1 <= v <= a.desiredVersion)
    && (forall v :: v in a.credentials ==> (a.credentials[v].key.Some? <==> a.credentials[v].state != Destroyed))
    && (if a.inbound.released then forall v :: v in a.credentials ==> a.credentials[v].state == Destroyed
        else
          && a.credentials[a.desiredVersion].state in {PendingKey, ActiveKey}
          && (forall v :: 1 <= v < a.desiredVersion - 1 ==> a.credentials[v].state == Destroyed)
          && (a.desiredVersion > 1 ==>
                a.credentials[a.desiredVersion - 1].state ==
                if a.credentials[a.desiredVersion].state == PendingKey then ActiveKey else Destroyed))
  }

  ghost predicate Inv(a: Allocation) {
    OpsOk(a) && IntentOk(a) && SyncOk(a) && CredentialsOk(a)
  }

  /** A snapshot is from the past; at an unchanged revision it is not out of date. */
  ghost predicate SnapshotOk(a: Allocation, s: Snapshot) {
    && 1 <= s.revision <= a.desiredRevision
    && s.userRevision <= a.userRevision
    && (s.revision == a.desiredRevision ==> s.present == a.Desired() && s.version == a.desiredVersion)
    && (s.userRevision == a.userRevision ==> s.version == a.desiredVersion)
  }

  /** How an allocation may change: counters only grow, a revision fixes presence and credential version, a closed
      operation is never reopened, and what an operation asks for never changes. */
  ghost predicate Evolves(a: Allocation, b: Allocation) {
    && a.desiredRevision <= b.desiredRevision && a.userRevision <= b.userRevision
    && a.syncedRevision <= b.syncedRevision && a.desiredVersion <= b.desiredVersion
    && (a.desiredRevision == b.desiredRevision ==> a.Desired() == b.Desired() && a.desiredVersion == b.desiredVersion)
    && (a.userRevision == b.userRevision ==> a.desiredVersion == b.desiredVersion)
    && |a.ops| <= |b.ops|
    && (forall i :: 0 <= i < |a.ops| ==> SameRequest(a.ops[i], b.ops[i]))
    && (forall i :: 0 <= i < |a.ops| && IsClosed(a.ops[i].state) ==> b.ops[i].state == a.ops[i].state)
  }

  predicate SameRequest(o: Op, p: Op) {
    o.revision == p.revision && o.presence == p.presence && o.version == p.version && o.reason == p.reason
  }

  /** What a transaction does that is not about the quota. */
  ghost predicate Keeps(a: Allocation, b: Allocation) {
    Inv(b) && Evolves(a, b) && b.quota == a.quota
  }

  lemma EvolvesTransitively(a: Allocation, b: Allocation, c: Allocation)
    requires Evolves(a, b) && Evolves(b, c)
    ensures Evolves(a, c)
  {
    forall i | 0 <= i < |a.ops|
      ensures SameRequest(a.ops[i], c.ops[i])
    {
      assert SameRequest(a.ops[i], b.ops[i]) && SameRequest(b.ops[i], c.ops[i]);
    }
  }

  lemma SnapshotsAge(a: Allocation, b: Allocation, s: Snapshot)
    requires SnapshotOk(a, s) && Evolves(a, b)
    ensures SnapshotOk(b, s)
  {
  }

  // ---- each transaction keeps it ----

  lemma CreatedOk(port: int, key: int, now: int)
    ensures var a := Created(port, key, now);
            && Inv(a) && a.Desired() && a.PendingSync() && a.inbound.port == port
            && a.credentials == map[1 := Credential(PendingKey, Some(key))]
            && |a.ops| == 1 && a.ops[0].reason == Create && a.ops[0].presence && Due(a.ops[0], now)
  {
  }

  /** What an intent at the next revision does to the queue. */
  lemma IntendKeepsQueue(a: Allocation, op: Op)
    requires OpsOk(a) && op.state == Pending && op.lease == None
    requires op.revision <= a.desiredRevision + 1 && op.revision >= 2
    ensures Intend(a, op).Some? <==> op.revision == a.desiredRevision + 1
    ensures Intend(a, op).Some? ==>
              var b := Intend(a, op).value;
              && OpsOk(b) && Last(b) == op && |b.ops| == |a.ops| + 1
              && (forall i :: 0 <= i < |a.ops| ==> SameRequest(a.ops[i], b.ops[i]))
              && (forall i :: 0 <= i < |a.ops| && IsClosed(a.ops[i].state) ==> b.ops[i].state == a.ops[i].state)
              && b.inbound == (if a.inbound.released then a.inbound else a.inbound.(desired := op.presence))
              && b == a.(ops := b.ops, inbound := b.inbound, desiredRevision := op.revision, projection := Awaiting)
  {
    var ops := SupersedeOlder(a.ops, op.revision);
    if op.revision <= a.desiredRevision {
      assert ops[op.revision - 1].revision == op.revision;
    }
  }

  lemma DecideKeeps(a: Allocation, adminEnabled: bool, exceeded: bool, now: int)
    requires Inv(a) && (a.lifecycle == Deleted ==> !adminEnabled)
    ensures Decide(a, adminEnabled, exceeded, now).Some?
    ensures var b := Decide(a, adminEnabled, exceeded, now).value;
            && Inv(b) && Evolves(a, b) && b.adminEnabled == adminEnabled && (b.quota == Exceeded <==> exceeded)
            && b.userRevision == a.userRevision
  {
    hide Intend, OpsOk, CredentialsOk;
    var d := DecideTransition(a.lifecycle, a.adminEnabled, a.quota, adminEnabled, exceeded);
    var c := a;
    if d.NeedsOperation() {
      var op := NewOp(a.desiredRevision + 1, d.willBePresent, Some(a.desiredVersion), d.reason.value, now);
      AtLeastOneRevision(a);
      IntendKeepsQueue(a, op);
      c := Intend(a, op).value;
    }
    var b := Decide(a, adminEnabled, exceeded, now).value;
    SameQueue(c, b);
    SameCredentials(a, b);
  }

  lemma AtLeastOneRevision(a: Allocation)
    requires OpsOk(a)
    ensures a.desiredRevision >= 1
  {
  }

  lemma SameQueue(a: Allocation, b: Allocation)
    requires OpsOk(a) && b.ops == a.ops && b.desiredRevision == a.desiredRevision
    ensures OpsOk(b) && Last(b) == Last(a)
  {
  }

  lemma SameCredentials(a: Allocation, b: Allocation)
    requires CredentialsOk(a) && b.credentials == a.credentials && b.desiredVersion == a.desiredVersion
    requires b.inbound.released == a.inbound.released
    ensures CredentialsOk(b)
  {
  }

  lemma EditUserKeeps(a: Allocation, expected: int, adminEnabled: bool, exceeded: bool, now: int)
    requires Inv(a)
    ensures var r := EditUser(a, expected, adminEnabled, exceeded, now);
            && (r.Some? <==> a.userRevision == expected && a.lifecycle == Active)
            && (r.Some? ==> r.value.userRevision == a.userRevision + 1)
            && (r.Some? ==> Inv(r.value) && Evolves(a, r.value) && r.value.adminEnabled == adminEnabled &&
                            (r.value.quota == Exceeded <==> exceeded))
  {
    hide Decide;
    var bumped := BumpUser(a, expected);
    if bumped.Some? {
      DecideKeeps(bumped.value, adminEnabled, exceeded, now);
      assert Evolves(a, bumped.value);
      EvolvesTransitively(a, bumped.value, Decide(bumped.value, adminEnabled, exceeded, now).value);
    }
  }

  /** The rows after an intent that the facts agree with keep the invariant, if the credentials do. */
  lemma SuccessorKeeps(a: Allocation, b: Allocation, op: Op)
    requires Inv(a) && OpsOk(b) && Last(b) == op && op.state == Pending && b.desiredRevision == a.desiredRevision + 1
    requires |b.ops| == |a.ops| + 1
    requires forall i :: 0 <= i < |a.ops| ==> SameRequest(a.ops[i], b.ops[i])
    requires forall i :: 0 <= i < |a.ops| && IsClosed(a.ops[i].state) ==> b.ops[i].state == a.ops[i].state
    requires b.syncedRevision == a.syncedRevision && b.projection == Awaiting && b.quota == a.quota
    requires a.userRevision <= b.userRevision && a.desiredVersion <= b.desiredVersion
    requires a.userRevision == b.userRevision ==> a.desiredVersion == b.desiredVersion
    requires IntentOk(b) && CredentialsOk(b)
    ensures Keeps(a, b)
  {
    hide CredentialsOk;
  }

  /** Rotation commits exactly when the user row is unchanged, no key is pending and no other path has moved the
      desired revision since the snapshot: a stale one runs into the one-operation-per-revision constraint. */
  lemma RotateKeeps(a: Allocation, s: Snapshot, key: int, now: int)
    requires Inv(a) && SnapshotOk(a, s)
    ensures var r := RotateCredential(a, s, key, now);
            && (r.Some? <==> s.userRevision == a.userRevision && a.lifecycle == Active && !HasPendingKey(a) &&
                             s.revision == a.desiredRevision)
            && (r.Some? ==>
                  && r.value.userRevision == a.userRevision + 1
                  && Keeps(a, r.value) && r.value.desiredVersion == a.desiredVersion + 1
                  && r.value.credentials == a.credentials[a.desiredVersion + 1 := Credential(PendingKey, Some(key))]
                  && Last(r.value).reason == Rotate && r.value.inbound.port == a.inbound.port)
  {
    hide Intend, Evolves, SyncOk;
    var bumped := BumpUser(a, s.userRevision);
    if bumped.Some? && !HasPendingKey(a) {
      assert s.version == a.desiredVersion;
      assert a.credentials[a.desiredVersion].state == ActiveKey;
      var c := bumped.value.(credentials := a.credentials[s.version + 1 := Credential(PendingKey, Some(key))]);
      var op := NewOp(s.revision + 1, s.present, Some(s.version + 1), Rotate, now);
      IntendKeepsQueue(c, op);
      var r := RotateCredential(a, s, key, now);
      if r.Some? {
        SameQueue(Intend(c, op).value, r.value);
        SuccessorKeeps(a, r.value, op);
      }
    }
  }

  lemma ChangePortKeeps(a: Allocation, s: Snapshot, oldPort: int, newPort: int, free: bool, now: int)
    requires Inv(a) && SnapshotOk(a, s)
    ensures var r := ChangePort(a, s, oldPort, newPort, free, now);
            && (r.Some? <==> s.userRevision == a.userRevision && a.lifecycle == Active && free &&
                             a.inbound.port == oldPort && s.revision == a.desiredRevision)
            && (r.Some? ==>
                  && r.value.userRevision == a.userRevision + 1
                  && Keeps(a, r.value) && r.value.inbound.port == newPort && r.value.credentials == a.credentials
                  && Last(r.value).reason == PortChange && Last(r.value).presence == a.Desired())
  {
    hide Intend, Evolves, SyncOk, CredentialsOk;
    var bumped := BumpUser(a, s.userRevision);
    if bumped.Some? {
      var c := bumped.value.(inbound := a.inbound.(port := newPort, observed := Some(false)));
      var op := NewOp(s.revision + 1, s.present, Some(s.version), PortChange, now);
      IntendKeepsQueue(c, op);
      var r := ChangePort(a, s, oldPort, newPort, free, now);
      if r.Some? {
        SameQueue(Intend(c, op).value, r.value);
        SameCredentials(a, r.value);
        SuccessorKeeps(a, r.value, op);
      }
    }
  }

  lemma SoftDeleteKeeps(a: Allocation, s: Snapshot, now: int)
    requires Inv(a) && SnapshotOk(a, s)
    ensures var r := SoftDelete(a, s, now);
            && (r.Some? <==> s.userRevision == a.userRevision && a.lifecycle == Active && s.revision == a.desiredRevision)
            && (r.Some? ==>
                  && r.value.userRevision == a.userRevision + 1
                  && Keeps(a, r.value) && r.value.lifecycle == Deleted && r.value.credentials == a.credentials
                  && !Last(r.value).presence && !r.value.inbound.desired && r.value.inbound.port == a.inbound.port)
  {
    hide Intend, Evolves, SyncOk, CredentialsOk;
    var bumped := BumpUser(a, s.userRevision);
    if bumped.Some? {
      var c, op := bumped.value.(lifecycle := Deleted), NewOp(s.revision + 1, false, None, Delete, now);
      IntendKeepsQueue(c, op);
      var r := SoftDelete(a, s, now);
      if r.Some? {
        SameQueue(Intend(c, op).value, r.value);
        SameCredentials(a, r.value);
        SuccessorKeeps(a, r.value, op);
      }
    }
  }

  /** The reconciler's compare-and-set on the revision alone is enough: presence and version come from a snapshot
      that may be old, and are right. */
  lemma ReconcileKeeps(a: Allocation, s: Snapshot, now: int)
    requires Inv(a) && SnapshotOk(a, s)
    ensures var r := EnqueueReconcile(a, s, now);
            && (r.Some? <==> s.revision == a.desiredRevision)
            && (r.Some? ==> Keeps(a, r.value))
  {
    hide Intend, Evolves, SyncOk, CredentialsOk;
    var op := NewOp(s.revision + 1, s.present, Some(s.version), Reconcile, now);
    IntendKeepsQueue(a, op);
    var r := EnqueueReconcile(a, s, now);
    if r.Some? {
      SameCredentials(a, r.value);
      SuccessorKeeps(a, r.value, op);
    }
  }

  lemma RecordObservationKeeps(a: Allocation, present: bool)
    requires Inv(a)
    ensures var b := RecordObservation(a, present); Keeps(a, b) && Last(b) == Last(a)
  {
    hide OpsOk, CredentialsOk;
    SameQueue(a, RecordObservation(a, present));
    SameCredentials(a, RecordObservation(a, present));
  }

  lemma InboundObservedKeeps(a: Allocation, present: bool)
    requires Inv(a)
    ensures var b := ConfirmInboundPresence(a, present); Keeps(a, b) && Last(b) == Last(a)
  {
    hide OpsOk, CredentialsOk;
    SameQueue(a, ConfirmInboundPresence(a, present));
    SameCredentials(a, ConfirmInboundPresence(a, present));
  }

  /** What an observation shows: a user in step shows what was seen and stays in step, one that waits goes on waiting, and
      nothing else is written. */
  lemma ObservationShows(a: Allocation, present: bool)
    requires Inv(a)
    ensures var b := Observe(a, present);
            && b.observed == Some(present) && b.PendingSync() == a.PendingSync()
            && b.projection == (if a.PendingSync() then a.projection else if present then Present else Absent)
            && b.inbound.observed == (if a.inbound.released then a.inbound.observed else Some(present))
            && b == a.(observed := b.observed, projection := b.projection, inbound := a.inbound.(observed := b.inbound.observed))
  {
    hide CredentialsOk, IntentOk;
  }

  /** Either observation on its own keeps the invariant, so a crash between the two does no harm. */
  lemma ObserveKeeps(a: Allocation, present: bool)
    requires Inv(a)
    ensures Keeps(a, RecordObservation(a, present)) && Keeps(a, ConfirmInboundPresence(a, present))
    ensures Keeps(a, Observe(a, present))
  {
    hide Inv, Evolves, RecordObservation, ConfirmInboundPresence;
    RecordObservationKeeps(a, present);
    InboundObservedKeeps(a, present);
    InboundObservedKeeps(RecordObservation(a, present), present);
    EvolvesTransitively(a, RecordObservation(a, present), Observe(a, present));
  }

  /** Rewriting the open row of the queue. */
  lemma SetLastKeeps(a: Allocation, i: int, op: Op)
    requires OpsOk(a) && IsOp(a, i) && SameRequest(a.ops[i], op) && !IsClosed(a.ops[i].state)
    requires op.state != Superseded && (op.state == Leased <==> op.lease.Some?)
    ensures i == |a.ops| - 1
    ensures OpsOk(SetOp(a, i, op)) && Last(SetOp(a, i, op)) == op && Evolves(a, SetOp(a, i, op))
  {
  }

  lemma LeaseKeeps(a: Allocation, i: int, owner: nat, now: int, duration: int)
    requires Inv(a) && IsOp(a, i)
    ensures var r := LeaseOp(a, i, owner, now, duration);
            && (r.Some? <==> Due(a.ops[i], now))
            && (r.Some? ==> Keeps(a, r.value) && Holds(r.value, i, owner) && i == |a.ops| - 1 && a.desiredRevision == a.ops[i].revision)
            && (r.Some? ==> r.value.ops[i].lease.value.until == now + duration && r.value.ops[i].attempts == a.ops[i].attempts)
  {
    if Due(a.ops[i], now) {
      SetLastKeeps(a, i, a.ops[i].(state := Leased, lease := Some(Lease(owner, now + duration))));
    }
  }

  lemma RenewKeeps(a: Allocation, i: int, owner: nat, now: int, duration: int)
    requires Inv(a) && IsOp(a, i)
    ensures var r := Renew(a, i, owner, now, duration);
            && (r.Some? <==> Holds(a, i, owner))
            && (r.Some? ==> Keeps(a, r.value) && Holds(r.value, i, owner) && !Due(r.value.ops[i], now + duration - 1))
  {
    if Holds(a, i, owner) {
      SetLastKeeps(a, i, a.ops[i].(lease := Some(Lease(owner, now + duration))));
    }
  }

  lemma FinishLeasedKeeps(a: Allocation, i: int, owner: nat, v: Verdict)
    requires Inv(a) && IsOp(a, i)
    ensures Keeps(a, FinishLeased(a, i, owner, v))
    ensures !Holds(a, i, owner) ==> FinishLeased(a, i, owner, v) == a
    ensures Holds(a, i, owner) ==>
              var b := FinishLeased(a, i, owner, v);
              && b.PendingSync() && b.syncedRevision == a.syncedRevision
              && (if v.Fail? then b.ops[i].state == PermanentFailed && b.projection == Error
                  else b.ops[i].state == RetryWait && b.ops[i].nextAttempt == v.next && b.projection == Awaiting)
  {
    hide CredentialsOk;
    SameCredentials(a, FinishLeased(a, i, owner, v));
    if Holds(a, i, owner) {
      var op := match v
        case Reschedule(attempts, next) =>
          a.ops[i].(state := RetryWait, attempts := attempts, nextAttempt := next, lease := None)
        case Fail => a.ops[i].(state := PermanentFailed, lease := None);
      SetLastKeeps(a, i, op);
    }
  }

  /** A lease is only ever held on the operation of the current intent. */
  lemma HolderIsCurrent(a: Allocation, i: int, owner: nat)
    requires OpsOk(a) && IsOp(a, i) && Holds(a, i, owner)
    ensures i == |a.ops| - 1 && a.ops[i].revision == a.desiredRevision
  {
  }

  lemma ActivateKeeps(a: Allocation, b: Allocation)
    requires CredentialsOk(a) && !a.inbound.released
    requires b.credentials == Activate(DestroyBelow(a.credentials, a.desiredVersion), a.desiredVersion)
    requires b.desiredVersion == a.desiredVersion && !b.inbound.released
    ensures CredentialsOk(b)
    ensures b.credentials[b.desiredVersion].state == ActiveKey
    ensures forall v :: 1 <= v < b.desiredVersion ==> b.credentials[v].state == Destroyed
  {
  }

  lemma ConfirmKeepsQueue(a: Allocation, i: int, owner: nat, s: Snapshot)
    requires OpsOk(a) && IntentOk(a) && SyncOk(a) && IsOp(a, i) && SnapshotOk(a, s) && s.revision >= a.ops[i].revision
    requires Holds(a, i, owner)
    ensures var (b, done) := Confirm(a, i, owner, if a.ops[i].presence then s.version else 0, a.ops[i].presence);
            && done && OpsOk(b) && IntentOk(b) && SyncOk(b) && Evolves(a, b)
  {
    SetLastKeeps(a, i, a.ops[i].(state := Succeeded, lease := None));
    HolderIsCurrent(a, i, owner);
  }

  /** A confirmation by a worker whose work was loaded no earlier than its operation was written: it succeeds exactly
      for the holder and is void for anyone else; then the recorded projection is what the facts want at that moment,
      the desired version is active and every lower one destroyed, even when a rotation was superseded midway. */
  lemma ConfirmKeeps(a: Allocation, i: int, owner: nat, s: Snapshot)
    requires Inv(a) && IsOp(a, i) && SnapshotOk(a, s) && s.revision >= a.ops[i].revision
    ensures var present := a.ops[i].presence;
            var (b, done) := Confirm(a, i, owner, if present then s.version else 0, present);
            && Keeps(a, b)
            && (done <==> Holds(a, i, owner))
            && (!done ==> b == a)
            && (done ==> && b.projection == (if a.Desired() then Present else Absent)
                         && b.syncedRevision == b.desiredRevision == a.desiredRevision
                         && b.ops[i].state == Succeeded
                         && (present ==> && b.credentials[b.desiredVersion].state == ActiveKey
                                         && forall v :: 1 <= v < b.desiredVersion ==> b.credentials[v].state == Destroyed)
                         && (!present ==>
                               if a.lifecycle == Deleted
                               then b.inbound.released && forall v :: v in b.credentials ==> b.credentials[v] == Credential(Destroyed, None)
                               else b.credentials == a.credentials && b.inbound.released == a.inbound.released))
  {
    var present := a.ops[i].presence;
    var (b, done) := Confirm(a, i, owner, if present then s.version else 0, present);
    if Holds(a, i, owner) {
      ConfirmKeepsQueue(a, i, owner, s);
      HolderIsCurrent(a, i, owner);
      hide Evolves, SyncOk;
      assert a.Desired() == present;
      if present { ActivateKeeps(a, b); }
    } else {
      assert Evolves(a, a);
    }
  }
}
