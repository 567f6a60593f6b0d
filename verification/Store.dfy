/** The panel's database. Every method is one transaction: it works on a private copy of the rows it touches, and
    they become visible together at its end or, after an early return, not at all. */
module Store {
  import opened Domain
  import opened Calendar
  import opened Intent
  import opened Ledger
  import opened Metering
  import opened Quota
  import opened Capability

  datatype User = User(tag: string, identity: string, template: nat, address: string, account: Account)

  function IntentAt(users: seq<User>, i: nat): Allocation
    requires i < |users|
  {
    users[i].account.intent
  }

  function WithAccountAt(users: seq<User>, i: nat, account: Account): seq<User>
    requires i < |users|
  {
    users[i := users[i].(account := account)]
  }

  function WithIntentAt(users: seq<User>, i: nat, a: Allocation): seq<User>
    requires i < |users|
  {
    WithAccountAt(users, i, users[i].account.(intent := a))
  }

  /** The rows after a transaction on one user that may have failed. */
  function AfterIntent(users: seq<User>, i: nat, r: Option<Allocation>): seq<User>
    requires i < |users|
  {
    if r.Some? then WithIntentAt(users, i, r.value) else users
  }

  function AfterAccount(users: seq<User>, i: nat, r: Option<Account>): seq<User>
    requires i < |users|
  {
    if r.Some? then WithAccountAt(users, i, r.value) else users
  }

  // ---- ports ----

  predicate Collides(u: User, address: string, port: int) {
    !u.account.intent.inbound.released && u.address == address && u.account.intent.inbound.port == port
  }

  /** No two unreleased inbounds share an address and a port. */
  ghost predicate PortsDistinct(users: seq<User>) {
    forall i, j :: 0 <= i < j < |users| && !users[i].account.intent.inbound.released ==>
      !Collides(users[j], users[i].address, users[i].account.intent.inbound.port)
  }

  ghost predicate PortTaken(users: seq<User>, self: nat, address: string, port: int) {
    exists j :: 0 <= j < |users| && j != self && Collides(users[j], address, port)
  }

  lemma PortTakenMeans(users: seq<User>, self: nat, address: string, port: int)
    ensures !PortTaken(users, self, address, port) ==>
              forall j :: 0 <= j < |users| && j != self && !users[j].account.intent.inbound.released && users[j].address == address ==>
                users[j].account.intent.inbound.port != port
  {
    forall j | 0 <= j < |users| && !Collides(users[j], address, port) && !users[j].account.intent.inbound.released
      ensures users[j].address == address ==> users[j].account.intent.inbound.port != port
    {
    }
  }

  // ---- the queue ----

  predicate Projectable(templates: seq<Template>, template: nat) {
    template < |templates| && templates[template].state != Incompatible
  }

  predicate Leasable(users: seq<User>, templates: seq<Template>, i: nat, k: nat, now: int) {
    i < |users| && IsOp(IntentAt(users, i), k) && Due(IntentAt(users, i).ops[k], now) && Projectable(templates, users[i].template)
  }

  predicate NotLater(o: Op, p: Op) {
    o.nextAttempt < p.nextAttempt || (o.nextAttempt == p.nextAttempt && o.createdAt <= p.createdAt)
  }

  /** Waiting operations are due at their next attempt, leased ones once the lease has run out. */
  predicate Ripe(op: Op, now: int) {
    match op.state
    case Pending | RetryWait => op.nextAttempt <= now
    case Leased => op.lease.Some? && op.lease.value.until <= now
    case _ => false
  }

  /** Nobody's operation is taken while its template is incompatible; of the others the one that waits longest goes first, and
      of those the oldest. */
  ghost predicate TakesNext(users: seq<User>, templates: seq<Template>, op: Op, now: int) {
    Ripe(op, now) &&
    forall j, l ::
      0 <= j < |users| && users[j].template < |templates| && templates[users[j].template].state != Incompatible &&
      0 <= l < |IntentAt(users, j).ops| && Ripe(IntentAt(users, j).ops[l], now) ==>
      var other := IntentAt(users, j).ops[l];
      op.nextAttempt < other.nextAttempt || (op.nextAttempt == other.nextAttempt && op.createdAt <= other.createdAt)
  }

  ghost predicate NothingToTake(users: seq<User>, templates: seq<Template>, now: int) {
    forall j, l ::
      0 <= j < |users| && users[j].template < |templates| && templates[users[j].template].state != Incompatible &&
      0 <= l < |IntentAt(users, j).ops| ==>
        !Ripe(IntentAt(users, j).ops[l], now)
  }

  lemma LeasableMeansRipe(users: seq<User>, templates: seq<Template>, now: int)
    ensures forall j: nat, l: nat :: Leasable(users, templates, j, l, now) <==>
              j < |users| && users[j].template < |templates| && templates[users[j].template].state != Incompatible &&
              l < |IntentAt(users, j).ops| && Ripe(IntentAt(users, j).ops[l], now)
  {
  }

  // ---- statement sequences inside transactions ----

  method SupersedeAndInsert(a: Allocation, op: Op) returns (r: Option<Allocation>)
    ensures r == InsertOperation(a.(ops := SupersedeOlder(a.ops, op.revision)), op)
  {
    var rows := a.ops;
    for i := 0 to |rows|
      invariant |rows| == |a.ops|
      invariant forall k :: 0 <= k < i ==> rows[k] == SupersedeOlder(a.ops, op.revision)[k]
      invariant forall k :: i <= k < |rows| ==> rows[k] == a.ops[k]
    {
      if rows[i].revision < op.revision && !IsClosed(rows[i].state) {
        rows := rows[i := rows[i].(state := Superseded, lease := None)];
      }
    }
    assert rows == SupersedeOlder(a.ops, op.revision);
    var b := a.(ops := rows);
    if !b.inbound.released { b := b.(inbound := b.inbound.(desired := op.presence)); }
    for i := 0 to |rows|
      invariant forall k :: 0 <= k < i ==> rows[k].revision != op.revision
    {
      if rows[i].revision == op.revision { return None; }
    }
    return Some(b.(ops := rows + [op]));
  }

  method WriteDecision(a: Allocation, d: Decision, adminEnabled: bool, now: int) returns (r: Option<Allocation>, created: bool)
    requires d.NeedsOperation() ==> d.reason.Some?
    ensures r == ApplyDecision(a, d, adminEnabled, now)
    ensures r.Some? ==> |r.value.ops| == |a.ops| + (if created then 1 else 0)
  {
    if d.NeedsOperation() {
      var op := NewOp(a.desiredRevision + 1, d.willBePresent, Some(a.desiredVersion), d.reason.value, now);
      var inserted := SupersedeAndInsert(a, op);
      if inserted.None? { return None, false; }
      var b := inserted.value;
      b := b.(adminEnabled := adminEnabled, quota := d.quota, desiredRevision := op.revision, projection := Awaiting);
      return Some(b), true;
    }
    return Some(a.(adminEnabled := adminEnabled, quota := d.quota)), false;
  }

  // ---- what is reported of the operations queued ----

  function Count(ops: seq<Op>, reason: Reason): nat {
    if ops == [] then 0 else Count(ops[..|ops| - 1], reason) + if ops[|ops| - 1].reason == reason then 1 else 0
  }

  lemma {:induction false} SameCount(a: seq<Op>, b: seq<Op>, reason: Reason)
    requires |a| == |b| && forall i :: 0 <= i < |a| ==> a[i].reason == b[i].reason
    ensures Count(a, reason) == Count(b, reason)
  {
    if a != [] { SameCount(a[..|a| - 1], b[..|b| - 1], reason); }
  }

  function One(b: bool): nat { if b then 1 else 0 }

  /** Blocks and restores queued between two states of a queue. */
  ghost predicate Counted(before: seq<Op>, after: seq<Op>, blocked: bool, restored: bool) {
    && Count(after, QuotaBlock) == Count(before, QuotaBlock) + One(blocked)
    && Count(after, QuotaRestore) == Count(before, QuotaRestore) + One(restored)
  }

  /** A quota decision queues a block or a restore, as the quota goes. */
  lemma DecideCounts(a: Allocation, exceeded: bool, now: int)
    ensures var r := Decide(a, a.adminEnabled, exceeded, now);
            r.Some? ==>
              var queued := |r.value.ops| > |a.ops|;
              Counted(a.ops, r.value.ops, queued && exceeded, queued && !exceeded)
  {
    var r := Decide(a, a.adminEnabled, exceeded, now);
    if r.Some? {
      var d := DecideTransition(a.lifecycle, a.adminEnabled, a.quota, a.adminEnabled, exceeded);
      if d.NeedsOperation() {
        var op := NewOp(a.desiredRevision + 1, d.willBePresent, Some(a.desiredVersion), d.reason.value, now);
        var older := SupersedeOlder(a.ops, op.revision);
        assert r.value.ops == older + [op];
        NextCounted(a.ops, older, op);
      }
    }
  }

  lemma NextCounted(ops: seq<Op>, older: seq<Op>, op: Op)
    requires |older| == |ops| && forall i :: 0 <= i < |ops| ==> older[i].reason == ops[i].reason
    ensures Counted(ops, older + [op], op.reason == QuotaBlock, op.reason == QuotaRestore)
  {
    assert (older + [op])[..|older|] == older;
    SameCount(ops, older, QuotaBlock);
    SameCount(ops, older, QuotaRestore);
  }

  /** Crosses the due boundaries one by one. */
  method SettleCycles(cycles: seq<Cycle>, resetDay: int, offset: int, now: int) returns (r: Option<seq<Cycle>>, rolled: nat)
    requires |cycles| > 0
    ensures r == Settle(cycles, resetDay, offset, now)
    ensures r.Some? ==> |r.value| == |cycles| + rolled
  {
    var rows := cycles;
    rolled := 0;
    while Open(rows).end <= now
      invariant |rows| == |cycles| + rolled
      invariant Settle(rows, resetDay, offset, now) == Settle(cycles, resetDay, offset, now)
      decreases if Open(rows).end <= now then now - Open(rows).end + 1 else 0
    {
      var start := Open(rows).end;
      var bounds := CycleBounds(start, offset, resetDay);
      if bounds.None? { return None, rolled; }
      var end := bounds.value.1;
      if end <= start { return None, rolled; }
      rows := rows[|rows| - 1 := Open(rows).(open := false)];
      rows := rows + [NewCycle(start, end, offset)];
      rolled := rolled + 1;
    }
    return Some(rows), rolled;
  }

  /** Settlement and what follows from it, inside a larger transaction. */
  method SettleAccount(a: Account, offset: int, now: int) returns (r: Option<Account>, rolled: nat, restored: bool)
    requires |a.book.cycles| > 0
    ensures r == Rollover(a, now, offset)
    ensures r.Some? ==> |r.value.book.cycles| == |a.book.cycles| + rolled
    ensures r.Some? ==> |r.value.intent.ops| == |a.intent.ops| + (if restored then 1 else 0)
    ensures r.Some? ==> Counted(a.intent.ops, r.value.intent.ops, false, restored)
  {
    hide Count, Decide;
    DecideCounts(a.intent, false, now);
    DecideIsApplied(a.intent, a.intent.adminEnabled, false, now);
    var cycles;
    cycles, rolled := SettleCycles(a.book.cycles, a.book.policy.resetDay, offset, now);
    if cycles.None? { return None, rolled, false; }
    if rolled == 0 {
      SettleNothing(a.book.cycles, a.book.policy.resetDay, offset, now);
      return Some(a), 0, false;
    }
    hide Settle;
    var b := a.(book := a.book.(cycles := cycles.value));
    var d := DecideTransition(b.intent.lifecycle, b.intent.adminEnabled, b.intent.quota, b.intent.adminEnabled, false);
    var intent;
    intent, restored := WriteDecision(b.intent, d, b.intent.adminEnabled, now);
    if intent.None? { return None, rolled, false; }
    r := Some(b.(intent := intent.value));
  }

  lemma {:induction false} SettleNothing(cycles: seq<Cycle>, resetDay: int, offset: int, now: int)
    requires |cycles| > 0
    ensures var r := Settle(cycles, resetDay, offset, now); r.Some? ==> |r.value| >= |cycles| && (|r.value| == |cycles| ==> r.value == cycles)
    decreases if Open(cycles).end <= now then now - Open(cycles).end + 1 else 0
  {
    hide CycleBounds;
    if Open(cycles).end <= now {
      var bounds := CycleBounds(Open(cycles).end, offset, resetDay);
      if bounds.Some? && bounds.value.1 > Open(cycles).end {
        SettleNothing(Roll(cycles, bounds.value.1, offset), resetDay, offset, now);
      }
    }
  }

  lemma PortsKept(users: seq<User>, i: nat, b: Account)
    requires i < |users| && PortsDistinct(users)
    requires var a := users[i].account;
             b.intent.inbound.port == a.intent.inbound.port && (a.intent.inbound.released ==> b.intent.inbound.released)
    ensures PortsDistinct(WithAccountAt(users, i, b))
  {
  }

  lemma PortMoved(users: seq<User>, i: nat, b: Account)
    requires i < |users| && PortsDistinct(users)
    requires !PortTaken(users, i, users[i].address, b.intent.inbound.port)
    ensures PortsDistinct(WithAccountAt(users, i, b))
  {
  }

  lemma InsertionKeepsPort(a: Allocation, op: Op)
    ensures var r := InsertOperation(a.(ops := SupersedeOlder(a.ops, op.revision)), op);
            r.Some? ==> r.value.inbound.port == a.inbound.port
  {
    hide SupersedeOlder;
  }

  class Database {
    var users: seq<User>
    var templates: seq<Template>
    var offset: int
    // the managed instance
    var anchor: Option<int>
    var generation: int
    var uptime: int

    /** The rows the capability gate is about. */
    ghost function Gate(): Registry
      reads this
    {
      Registry(anchor, generation, uptime, templates)
    }

    /** Every user has a cycle to account in, and no port is given out twice. */
    ghost predicate Valid()
      reads this
    {
      PortsDistinct(users) && forall i :: 0 <= i < |users| ==> |users[i].account.book.cycles| > 0
    }

    constructor (templates: seq<Template>, offset: int)
      ensures Valid() && users == [] && this.offset == offset && Gate() == Registry(None, 1, 0, templates)
    {
      users, this.templates, this.offset := [], templates, offset;
      anchor, generation, uptime := None, 1, 0;
    }

    /** Writes one user's row back; the last step of a transaction. */
    method Commit(i: nat, account: Account)
      requires Valid() && i < |users| && |account.book.cycles| > 0
      requires account.intent.inbound.port == IntentAt(users, i).inbound.port
      requires IntentAt(users, i).inbound.released ==> account.intent.inbound.released
      modifies this`users
      ensures Valid() && users == WithAccountAt(old(users), i, account)
    {
      PortsKept(users, i, account);
      users := users[i := users[i].(account := account)];
    }

    method IsPortTaken(self: nat, address: string, port: int) returns (taken: bool)
      ensures taken <==> PortTaken(users, self, address, port)
    {
      for j := 0 to |users|
        invariant forall k :: 0 <= k < j && k != self ==> !Collides(users[k], address, port)
      {
        if j != self && Collides(users[j], address, port) { return true; }
      }
      return false;
    }

    // ---- users ----

    /** Refused, with nothing written, exactly when the port is taken on that address. */
    method CreateUser(tag: string, identity: string, template: nat, address: string, policy: Policy, port: int, key: int,
                      start: int, end: int, now: int) returns (ok: bool)
      requires Valid()
      modifies this`users
      ensures Valid()
      ensures ok <==> !PortTaken(old(users), |old(users)|, address, port)
      ensures users == if ok
                       then old(users) + [User(tag, identity, template, address, CreateAccount(policy, port, key, start, end, offset, now))]
                       else old(users)
      ensures ok <==> forall j :: 0 <= j < |old(users)| && !old(users)[j].account.intent.inbound.released && old(users)[j].address == address ==>
                        old(users)[j].account.intent.inbound.port != port
    {
      var taken := IsPortTaken(|users|, address, port);
      if taken { return false; }
      users := users + [User(tag, identity, template, address, CreateAccount(policy, port, key, start, end, offset, now))];
      return true;
    }

    method UpdateUser(i: nat, expected: int, policy: Policy, adminEnabled: bool, now: int) returns (ok: bool, created: bool)
      requires Valid() && i < |users|
      modifies this`users
      ensures Valid()
      ensures var r := Quota.UpdateUser(old(users)[i].account, expected, policy, adminEnabled, now);
              && users == AfterAccount(old(users), i, r) && ok == r.Some?
              && (ok ==> |IntentAt(users, i).ops| == |IntentAt(old(users), i).ops| + (if created then 1 else 0))
    {
      hide PortsDistinct, PolicyOk, OverQuota, SupersedeOlder;
      if !PolicyOk(policy) { return false, false; }
      var a := users[i].account;
      if a.intent.userRevision != expected || a.intent.lifecycle != Active { return false, false; }
      a := a.(intent := a.intent.(userRevision := a.intent.userRevision + 1));
      a := a.(book := a.book.(policy := policy));
      var exceeded := OverQuota(a.book);
      var d := DecideTransition(a.intent.lifecycle, a.intent.adminEnabled, a.intent.quota, adminEnabled, exceeded);
      var intent;
      intent, created := WriteDecision(a.intent, d, adminEnabled, now);
      if intent.None? { return false, false; }
      Commit(i, a.(intent := intent.value));
      return true, created;
    }

    method RotateCredential(i: nat, s: Snapshot, key: int, now: int) returns (ok: bool)
      requires Valid() && i < |users|
      modifies this`users
      ensures Valid()
      ensures var r := Intent.RotateCredential(IntentAt(old(users), i), s, key, now);
              users == AfterIntent(old(users), i, r) && ok == r.Some?
    {
      var a := users[i].account.intent;
      if a.userRevision != s.userRevision || a.lifecycle != Active { return false; }
      a := a.(userRevision := a.userRevision + 1);
      if HasPendingKey(a) { return false; }
      if s.version + 1 in a.credentials { return false; }
      a := a.(credentials := a.credentials[s.version + 1 := Credential(PendingKey, Some(key))]);
      var op := NewOp(s.revision + 1, s.present, Some(s.version + 1), Rotate, now);
      var inserted := SupersedeAndInsert(a, op);
      if inserted.None? { return false; }
      a := inserted.value;
      a := a.(desiredVersion := s.version + 1, desiredRevision := op.revision, projection := Awaiting);
      Commit(i, users[i].account.(intent := a));
      return true;
    }

    /** The new port must lie in the template's pool and be free on the inbound's address. */
    method ChangeInboundPort(i: nat, s: Snapshot, oldPort: int, newPort: int, now: int) returns (ok: bool)
      requires Valid() && i < |users|
      modifies this`users
      ensures Valid()
      ensures var t := old(users)[i].template;
              var free := && t < |templates| && templates[t].first <= newPort <= templates[t].last
                          && !PortTaken(old(users), i, old(users)[i].address, newPort);
              var r := ChangePort(IntentAt(old(users), i), s, oldPort, newPort, free, now);
              users == AfterIntent(old(users), i, r) && ok == r.Some?
      ensures ok ==>
                && IntentAt(users, i).inbound.port == newPort
                && forall j :: 0 <= j < |users| && j != i && !users[j].account.intent.inbound.released && users[j].address == users[i].address ==>
                     users[j].account.intent.inbound.port != newPort
    {
      hide PortsDistinct, PortTaken, SupersedeOlder, InsertOperation;
      PortTakenMeans(users, i, users[i].address, newPort);
      var u := users[i];
      var a := u.account.intent;
      if a.userRevision != s.userRevision || a.lifecycle != Active { return false; }
      a := a.(userRevision := a.userRevision + 1);
      if u.template >= |templates| { return false; }
      if newPort < templates[u.template].first || newPort > templates[u.template].last { return false; }
      if a.inbound.released || a.inbound.port != oldPort { return false; }
      var taken := IsPortTaken(i, u.address, newPort);
      if taken { return false; }
      a := a.(inbound := a.inbound.(port := newPort, observed := Some(false)));
      var op := NewOp(s.revision + 1, s.present, Some(s.version), PortChange, now);
      var inserted := SupersedeAndInsert(a, op);
      if inserted.None? { return false; }
      InsertionKeepsPort(a, op);
      a := inserted.value;
      a := a.(desiredRevision := op.revision, projection := Awaiting, observed := Some(false));
      PortMoved(users, i, u.account.(intent := a));
      users := users[i := u.(account := u.account.(intent := a))];
      return true;
    }

    method SoftDeleteUser(i: nat, s: Snapshot, now: int) returns (ok: bool)
      requires Valid() && i < |users|
      modifies this`users
      ensures Valid()
      ensures var r := SoftDelete(IntentAt(old(users), i), s, now);
              users == AfterIntent(old(users), i, r) && ok == r.Some?
    {
      var a := users[i].account.intent;
      if a.userRevision != s.userRevision || a.lifecycle != Active { return false; }
      a := a.(lifecycle := Deleted, userRevision := a.userRevision + 1);
      var op := NewOp(s.revision + 1, false, None, Delete, now);
      var inserted := SupersedeAndInsert(a, op);
      if inserted.None? { return false; }
      a := inserted.value;
      a := a.(adminEnabled := false, desiredRevision := op.revision, projection := Awaiting);
      Commit(i, users[i].account.(intent := a));
      return true;
    }

    // ---- the queue ----

    /** Leases the operation that is due first, by next attempt and then by creation; nothing is leased exactly when
        nothing is due. */
    method LeaseDueSync(owner: nat, now: int, lease: int) returns (work: Option<(nat, nat)>)
      requires Valid()
      modifies this`users
      ensures Valid()
      ensures work.None? ==> users == old(users) && forall i: nat, k: nat :: !Leasable(users, templates, i, k, now)
      ensures work.Some? ==>
                var (i, k) := work.value;
                && Leasable(old(users), templates, i, k, now)
                && (forall j: nat, l: nat :: Leasable(old(users), templates, j, l, now) ==>
                      NotLater(IntentAt(old(users), i).ops[k], IntentAt(old(users), j).ops[l]))
                && users == AfterIntent(old(users), i, LeaseOp(IntentAt(old(users), i), k, owner, now, lease))
      ensures work.Some? ==>
                var (i, k) := work.value;
                && i < |old(users)| && IsOp(IntentAt(old(users), i), k) && TakesNext(old(users), templates, IntentAt(old(users), i).ops[k], now)
      ensures work.None? ==> NothingToTake(users, templates, now)
    {
      LeasableMeansRipe(users, templates, now);
      work := None;
      for i := 0 to |users|
        invariant work.Some? ==> Leasable(users, templates, work.value.0, work.value.1, now)
        invariant forall j: nat, l: nat :: j < i && Leasable(users, templates, j, l, now) ==>
                    work.Some? && NotLater(IntentAt(users, work.value.0).ops[work.value.1], IntentAt(users, j).ops[l])
      {
        var ops := users[i].account.intent.ops;
        if Projectable(templates, users[i].template) {
          for k := 0 to |ops|
            invariant work.Some? ==> Leasable(users, templates, work.value.0, work.value.1, now)
            invariant forall j: nat, l: nat :: (j < i || (j == i && l < k)) && Leasable(users, templates, j, l, now) ==>
                        work.Some? && NotLater(IntentAt(users, work.value.0).ops[work.value.1], IntentAt(users, j).ops[l])
          {
            if Due(ops[k], now) &&
               (work.None? || !NotLater(users[work.value.0].account.intent.ops[work.value.1], ops[k])) {
              work := Some((i, k));
            }
          }
        }
      }
      if work.Some? {
        var (i, k) := work.value;
        var a := users[i].account.intent;
        a := a.(ops := a.ops[k := a.ops[k].(state := OpState.Leased, lease := Some(Lease(owner, now + lease)))]);
        Commit(i, users[i].account.(intent := a));
      }
    }

    method RenewSyncLease(i: nat, k: nat, owner: nat, now: int, lease: int) returns (held: bool)
      requires Valid() && i < |users| && IsOp(IntentAt(users, i), k)
      modifies this`users
      ensures Valid()
      ensures var r := Renew(IntentAt(old(users), i), k, owner, now, lease);
              users == AfterIntent(old(users), i, r) && held == r.Some?
    {
      var a := users[i].account.intent;
      var op := a.ops[k];
      if op.state != OpState.Leased || op.lease.None? || op.lease.value.owner != owner || op.revision != a.desiredRevision {
        return false;
      }
      a := a.(ops := a.ops[k := op.(lease := Some(Lease(owner, now + lease)))]);
      Commit(i, users[i].account.(intent := a));
      return true;
    }

    /** Void without the lease, superseded without the revision; otherwise credentials, port, inbound, allocation and
        operation are written together. */
    method ConfirmSync(i: nat, k: nat, owner: nat, version: int, present: bool) returns (ok: bool)
      requires Valid() && i < |users| && IsOp(IntentAt(users, i), k)
      modifies this`users
      ensures Valid()
      ensures (users, ok) == var (b, done) := Confirm(IntentAt(old(users), i), k, owner, version, present);
                             (WithIntentAt(old(users), i, b), done)
    {
      var a := users[i].account.intent;
      var op := a.ops[k];
      if op.state != OpState.Leased || op.lease.None? || op.lease.value.owner != owner {
        assert WithIntentAt(users, i, a) == users;
        return false;
      }
      if a.desiredRevision != op.revision {
        a := a.(ops := a.ops[k := op.(state := Superseded, lease := None)]);
        Commit(i, users[i].account.(intent := a));
        return false;
      }
      if present {
        a := a.(credentials := DestroyBelow(a.credentials, version));
        a := a.(credentials := Activate(a.credentials, version));
      } else if a.lifecycle == Deleted {
        a := a.(credentials := map v | v in a.credentials :: Credential(Destroyed, None));
        if !a.inbound.released { a := a.(inbound := a.inbound.(released := true, desired := false, observed := Some(false))); }
      }
      if !a.inbound.released { a := a.(inbound := a.inbound.(observed := Some(present))); }
      a := a.(projection := if present then Present else Absent, observed := Some(present),
              syncedRevision := op.revision, syncedVersion := if present then Some(version) else None);
      a := a.(ops := a.ops[k := op.(state := Succeeded, lease := None)]);
      Commit(i, users[i].account.(intent := a));
      return true;
    }

    /** Rescheduling or failing for good, by the holder and for the current intent only. */
    method FinishSync(i: nat, k: nat, owner: nat, verdict: Verdict)
      requires Valid() && i < |users| && IsOp(IntentAt(users, i), k)
      modifies this`users
      ensures Valid()
      ensures users == WithIntentAt(old(users), i, FinishLeased(IntentAt(old(users), i), k, owner, verdict))
    {
      var a := users[i].account.intent;
      var op := a.ops[k];
      if op.state != OpState.Leased || op.lease.None? || op.lease.value.owner != owner {
        assert WithIntentAt(users, i, a) == users;
        return;
      }
      if op.revision != a.desiredRevision {
        op := op.(state := Superseded, lease := None);
      } else {
        match verdict {
          case Reschedule(attempts, next) =>
            op := op.(state := RetryWait, attempts := attempts, nextAttempt := next, lease := None);
            a := a.(projection := Awaiting);
          case Fail =>
            op := op.(state := PermanentFailed, lease := None);
            a := a.(projection := Error);
        }
      }
      a := a.(ops := a.ops[k := op]);
      Commit(i, users[i].account.(intent := a));
    }

    method EnqueueReconcile(i: nat, s: Snapshot, now: int) returns (queued: bool)
      requires Valid() && i < |users|
      modifies this`users
      ensures Valid()
      ensures var r := Intent.EnqueueReconcile(IntentAt(old(users), i), s, now);
              users == AfterIntent(old(users), i, r) && queued == r.Some?
    {
      var a := users[i].account.intent;
      if a.desiredRevision != s.revision { return false; }
      var op := NewOp(s.revision + 1, s.present, Some(s.version), Reconcile, now);
      a := a.(desiredRevision := op.revision, projection := Awaiting);
      var inserted := SupersedeAndInsert(a, op);
      if inserted.None? { return false; }
      Commit(i, users[i].account.(intent := inserted.value));
      return true;
    }

    /** What the reconciler saw, on the allocation. */
    method RecordObservation(i: nat, present: bool)
      requires Valid() && i < |users|
      modifies this`users
      ensures Valid() && users == WithIntentAt(old(users), i, Intent.RecordObservation(IntentAt(old(users), i), present))
    {
      var a := users[i].account.intent;
      a := a.(observed := Some(present));
      if a.desiredRevision == a.syncedRevision { a := a.(projection := if present then Present else Absent); }
      Commit(i, users[i].account.(intent := a));
    }

    /** The same on the inbound, unless its port was given back; a statement of its own. */
    method ConfirmInboundPresence(i: nat, present: bool)
      requires Valid() && i < |users|
      modifies this`users
      ensures Valid() && users == WithIntentAt(old(users), i, Intent.ConfirmInboundPresence(IntentAt(old(users), i), present))
    {
      var a := users[i].account.intent;
      if !a.inbound.released { a := a.(inbound := a.inbound.(observed := Some(present))); }
      Commit(i, users[i].account.(intent := a));
    }

    // ---- cycles and traffic ----

    method RolloverCycle(i: nat, now: int) returns (ok: bool, rolled: nat, restored: bool)
      requires Valid() && i < |users|
      modifies this`users
      ensures Valid()
      ensures var r := Rollover(old(users)[i].account, now, offset);
              && users == AfterAccount(old(users), i, r) && ok == r.Some?
              && (ok ==> |users[i].account.book.cycles| == |old(users)[i].account.book.cycles| + rolled)
              && (ok ==> |IntentAt(users, i).ops| == |IntentAt(old(users), i).ops| + (if restored then 1 else 0))
              && (ok ==> Counted(IntentAt(old(users), i).ops, IntentAt(users, i).ops, false, restored))
    {
      hide Settle, Count;
      var r;
      r, rolled, restored := SettleAccount(users[i].account, offset, now);
      if r.None? { return false, rolled, restored; }
      RolloverKeepsInbound(users[i].account, now, offset);
      Commit(i, r.value);
      return true, rolled, restored;
    }

    method ResetCycleTraffic(i: nat, cycle: nat, now: int) returns (ok: bool, created: bool)
      requires Valid() && i < |users|
      modifies this`users
      ensures Valid()
      ensures var r := ResetTraffic(old(users)[i].account, cycle, now);
              && users == AfterAccount(old(users), i, r) && ok == r.Some?
              && (ok ==> |IntentAt(users, i).ops| == |IntentAt(old(users), i).ops| + (if created then 1 else 0))
    {
      var a := users[i].account;
      if cycle >= |a.book.cycles| || !a.book.cycles[cycle].open { return false, false; }
      var c := a.book.cycles[cycle];
      a := a.(book := a.book.(events := a.book.events + [ResetEvent(cycle, c.accounted)]));
      a := a.(book := a.book.(cycles := a.book.cycles[cycle := c.(accounted := ZERO, resets := c.resets + 1)]));
      var d := DecideTransition(a.intent.lifecycle, a.intent.adminEnabled, a.intent.quota, a.intent.adminEnabled, false);
      var intent;
      intent, created := WriteDecision(a.intent, d, a.intent.adminEnabled, now);
      if intent.None? { return false, false; }
      Commit(i, a.(intent := intent.value));
      return true, created;
    }

    // ---- templates and the instance ----

    method AdvanceCapabilityGeneration(s: Signal) returns (current: int, advanced: bool)
      modifies this`anchor, this`generation, this`uptime
      ensures Gate() == Advance(old(Gate()), s)
      ensures current == generation && (advanced <==> generation > old(generation))
      ensures generation >= old(generation)
    {
      if !s.known {
        return generation, false;
      }
      if anchor.None? {
        anchor, uptime := Some(WholeSeconds(s.boot)), s.uptime;
        return generation, false;
      }
      var restarted := RestartConfirmed(anchor, s.boot, true, TOLERANCE) || (uptime > 0 && s.uptime < uptime) || s.suspected;
      if !restarted {
        if s.uptime > uptime { uptime := s.uptime; }
        return generation, false;
      }
      generation := generation + 1;
      anchor, uptime := Some(WholeSeconds(s.boot)), s.uptime;
      return generation, true;
    }

    method MarkInstanceHealthy(boot: Option<int>)
      modifies this`anchor
      ensures Gate() == MarkHealthy(old(Gate()), boot)
    {
      if anchor.None? { anchor := boot; }
    }

    /** Collects the stale rows first, then updates them. */
    method InvalidateStaleCapabilityEvidence(current: int) returns (stale: seq<nat>)
      modifies this`templates
      ensures Gate() == Invalidate(old(Gate()), current)
      ensures forall k: nat :: k in stale <==> current > 0 && k < |old(templates)| && IsStale(old(templates)[k], current)
    {
      stale := [];
      if current <= 0 {
        return;
      }
      for i := 0 to |templates|
        invariant forall k: nat :: k in stale <==> k < i && IsStale(templates[k], current)
      {
        if IsStale(templates[i], current) { stale := stale + [i]; }
      }
      var rows := templates;
      for i := 0 to |stale|
        invariant |rows| == |templates|
        invariant forall k: nat :: k < |rows| ==> k in stale[..i] || rows[k] == templates[k]
        invariant forall k: nat :: k in stale[..i] ==>
                    k < |rows| && rows[k] == templates[k].(state := Unverified, validated := None, revision := templates[k].revision + 1)
      {
        var k := stale[i];
        assert k in stale;
        assert stale[..i + 1] == stale[..i] + [k];
        rows := rows[k := templates[k].(state := Unverified, validated := None, revision := templates[k].revision + 1)];
      }
      assert stale[..|stale|] == stale;
      templates := rows;
      assert Gate().templates == Invalidate(old(Gate()), current).templates;
    }

    method CompleteTemplateValidation(v: Validation, boot: Option<int>) returns (applied: bool)
      modifies this`anchor, this`templates
      ensures Gate() == Complete(old(Gate()), v, boot) && applied == Accepts(old(Gate()), v)
    {
      var validated := None;
      if v.state == Compatible && v.generation > 0 { validated := Some(v.generation); }
      if v.template >= |templates| || templates[v.template].revision != v.revision || templates[v.template].archived {
        return false;
      }
      templates := templates[v.template := templates[v.template].(state := v.state, validated := validated)];
      if anchor.None? { anchor := boot; }
      return true;
    }

    /** A worker's report about a template. */
    method SetTemplateCompatibility(template: nat, state: Compatibility)
      modifies this`templates
      ensures templates == if template < |old(templates)| then old(templates)[template := old(templates)[template].(state := state)]
                           else old(templates)
    {
      if template < |templates| { templates := templates[template := templates[template].(state := state)]; }
    }

    // ---- a collection round ----

    /** Writes a whole round or nothing. What it reports is what it queued, so the worker is woken exactly when there
        is something new to do. */
    method CommitTrafficBatch(updates: seq<(nat, Update)>, at: int) returns (ok: bool, blocked: nat, restored: nat)
      requires Valid() && forall k :: 0 <= k < |updates| ==> updates[k].0 < |users|
      modifies this`users
      ensures Valid() && |users| == |old(users)|
      ensures var r := CommitAll(old(users), updates, at, offset);
              ok == r.Some? && users == if ok then r.value else old(users)
      ensures ok ==> TotalOps(users) == TotalOps(old(users)) + blocked + restored
      ensures ok ==> TotalFor(users, QuotaBlock) == TotalFor(old(users), QuotaBlock) + blocked
      ensures ok ==> TotalFor(users, QuotaRestore) == TotalFor(old(users), QuotaRestore) + restored
    {
      hide PortsDistinct, CommitTraffic, TotalOps, TotalFor, Count;
      var rows := users;
      blocked, restored := 0, 0;
      for n := 0 to |updates|
        invariant users == old(users) && |rows| == |users| && PortsDistinct(rows)
        invariant forall i :: 0 <= i < |rows| ==> |rows[i].account.book.cycles| > 0
        invariant CommitAll(users, updates[..n], at, offset) == Some(rows)
        invariant TotalOps(rows) == TotalOps(users) + blocked + restored
        invariant TotalFor(rows, QuotaBlock) == TotalFor(users, QuotaBlock) + blocked
        invariant TotalFor(rows, QuotaRestore) == TotalFor(users, QuotaRestore) + restored
      {
        assert updates[..n + 1][..n] == updates[..n];
        var (i, u) := updates[n];
        var a, did, was := RecordUpdate(rows[i].account, u, at, offset);
        if a.None? {
          CommitAllFails(users, updates, n + 1, at, offset);
          return false, 0, 0;
        }
        PortsKept(rows, i, a.value);
        TotalOpsAfter(rows, i, a.value);
        TotalForAfter(rows, i, a.value, QuotaBlock);
        TotalForAfter(rows, i, a.value, QuotaRestore);
        rows := rows[i := rows[i].(account := a.value)];
        if did { blocked := blocked + 1; }
        if was { restored := restored + 1; }
      }
      assert updates[..|updates|] == updates;
      users := rows;
      return true, blocked, restored;
    }
  }

  /** One update of a round: settle, move the cursor, add the bytes, and block if they reached the limit. */
  method RecordUpdate(a: Account, u: Update, at: int, offset: int) returns (r: Option<Account>, blocked: bool, restored: bool)
    requires |a.book.cycles| > 0
    ensures r == CommitTraffic(a, u, at, offset)
    ensures r.Some? ==>
              && |r.value.book.cycles| > 0
              && |r.value.intent.ops| == |a.intent.ops| + (if blocked then 1 else 0) + (if restored then 1 else 0)
              && r.value.intent.inbound.port == a.intent.inbound.port
              && r.value.intent.inbound.released == a.intent.inbound.released
              && Counted(a.intent.ops, r.value.intent.ops, blocked, restored)
  {
    hide Settle, Decide, Count, OverQuota, Upsert, ApplyDecision;
    RolloverKeepsInbound(a, at, offset);
    var settled, _, was := SettleAccount(a, offset, at);
    if settled.None? { return None, false, false; }
    var b := settled.value;
    DecideCounts(b.intent, true, at);
    b := b.(cursor := u.cursor);
    if u.delta != ZERO {
      var c := Open(b.book.cycles);
      b := b.(book := b.book.(total := b.book.total.Plus(u.delta)));
      b := b.(book := b.book.(days := Upsert(b.book.days, u.day, u.delta)));
      b := b.(book := b.book.(cycles := SetOpen(b.book.cycles, c.(gross := c.gross.Plus(u.delta), accounted := c.accounted.Plus(u.delta)))));
    }
    if !OverQuota(b.book) || b.intent.quota != WithinLimit { return Some(b), false, was; }
    var d := DecideTransition(b.intent.lifecycle, b.intent.adminEnabled, b.intent.quota, b.intent.adminEnabled, true);
    DecideKeepsInbound(b.intent, b.intent.adminEnabled, true, at);
    assert Decide(b.intent, b.intent.adminEnabled, true, at) == ApplyDecision(b.intent, d, b.intent.adminEnabled, at) by {
      DecideIsApplied(b.intent, b.intent.adminEnabled, true, at);
    }
    var intent, created := WriteDecision(b.intent, d, b.intent.adminEnabled, at);
    if intent.None? { return None, false, false; }
    return Some(b.(intent := intent.value)), created, was;
  }

  lemma DecideIsApplied(a: Allocation, adminEnabled: bool, exceeded: bool, now: int)
    ensures var d := DecideTransition(a.lifecycle, a.adminEnabled, a.quota, adminEnabled, exceeded);
            Decide(a, adminEnabled, exceeded, now) == ApplyDecision(a, d, adminEnabled, now)
  {
  }

  lemma {:induction false} CommitAllFails(users: seq<User>, updates: seq<(nat, Update)>, n: nat, at: int, offset: int)
    requires forall i :: 0 <= i < |users| ==> |users[i].account.book.cycles| > 0
    requires forall k :: 0 <= k < |updates| ==> updates[k].0 < |users|
    requires n <= |updates| && CommitAll(users, updates[..n], at, offset).None?
    ensures CommitAll(users, updates, at, offset).None?
    decreases |updates| - n
  {
    if n < |updates| {
      assert updates[..n + 1][..n] == updates[..n];
      CommitAllFails(users, updates, n + 1, at, offset);
    } else {
      assert updates[..n] == updates;
    }
  }

  /** A round's updates, one after another; if any of them fails, none happened. */
  function CommitAll(users: seq<User>, updates: seq<(nat, Update)>, at: int, offset: int): Option<seq<User>>
    requires forall i :: 0 <= i < |users| ==> |users[i].account.book.cycles| > 0
    requires forall k :: 0 <= k < |updates| ==> updates[k].0 < |users|
  {
    if updates == [] then Some(users)
    else match CommitAll(users, updates[..|updates| - 1], at, offset)
      case None => None
      case Some(done) =>
        var (i, u) := updates[|updates| - 1];
        if i >= |done| || |done[i].account.book.cycles| == 0 then None
        else match CommitTraffic(done[i].account, u, at, offset)
          case None => None
          case Some(a) => Some(WithAccountAt(done, i, a))
  }

  function TotalOps(users: seq<User>): nat {
    if users == [] then 0 else |users[0].account.intent.ops| + TotalOps(users[1..])
  }

  function TotalFor(users: seq<User>, reason: Reason): nat {
    if users == [] then 0 else Count(users[0].account.intent.ops, reason) + TotalFor(users[1..], reason)
  }

  lemma {:induction false} TotalForAfter(users: seq<User>, i: nat, a: Account, reason: Reason)
    requires i < |users| && Count(a.intent.ops, reason) >= Count(IntentAt(users, i).ops, reason)
    ensures TotalFor(WithAccountAt(users, i, a), reason) ==
            TotalFor(users, reason) + Count(a.intent.ops, reason) - Count(IntentAt(users, i).ops, reason)
  {
    hide Count;
    if i > 0 {
      TotalForAfter(users[1..], i - 1, a, reason);
      assert WithAccountAt(users, i, a)[1..] == WithAccountAt(users[1..], i - 1, a);
    } else {
      assert WithAccountAt(users, i, a)[1..] == users[1..];
    }
  }

  lemma {:induction false} TotalOpsAfter(users: seq<User>, i: nat, a: Account)
    requires i < |users| && |a.intent.ops| >= |IntentAt(users, i).ops|
    ensures TotalOps(WithAccountAt(users, i, a)) == TotalOps(users) + |a.intent.ops| - |IntentAt(users, i).ops|
  {
    if i > 0 {
      TotalOpsAfter(users[1..], i - 1, a);
      assert WithAccountAt(users, i, a)[1..] == WithAccountAt(users[1..], i - 1, a);
    }
  }

  lemma DecideKeepsInbound(a: Allocation, adminEnabled: bool, exceeded: bool, now: int)
    ensures var r := Decide(a, adminEnabled, exceeded, now);
            r.Some? ==> r.value.inbound.port == a.inbound.port && r.value.inbound.released == a.inbound.released
  {
  }

  lemma RolloverKeepsInbound(a: Account, now: int, offset: int)
    requires |a.book.cycles| > 0
    ensures var r := Rollover(a, now, offset);
            r.Some? ==> && r.value.intent.inbound.port == a.intent.inbound.port
                        && r.value.intent.inbound.released == a.intent.inbound.released
  {
    hide Settle, Decide;
    DecideKeepsInbound(a.intent, a.intent.adminEnabled, false, now);
  }
}
