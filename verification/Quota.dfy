/** One user's rows together, and the transactions in which bytes, cycles and policy decide access. */
module Quota {
  import opened Domain
  import opened Calendar
  import opened Intent
  import opened Ledger
  import opened Metering

  datatype Account = Account(intent: Allocation, book: Book, cursor: Cursor)

  /** The test the transaction makes on the open cycle. */
  predicate OverQuota(b: Book)
    requires |b.cycles| > 0
  {
    var used := Open(b.cycles).accounted;
    IsQuotaExceeded(b.policy.limit, used.up, used.down)
  }

  ghost predicate AccountOk(a: Account) {
    && Inv(a.intent) && BookOk(a.book) && a.book.total.Fits()
    && (a.intent.quota == Exceeded <==> OverQuota(a.book))
  }

  // ---- the transactions ----

  function CreateAccount(policy: Policy, port: int, key: int, start: int, end: int, offset: int, now: int): Account {
    Account(Created(port, key, now), OpenBook(policy, start, end, offset), NO_CURSOR)
  }

  function WithIntent(a: Account, intent: Option<Allocation>): Option<Account> {
    match intent
    case None => None
    case Some(i) => Some(a.(intent := i))
  }

  function UpdateUser(a: Account, expected: int, policy: Policy, adminEnabled: bool, now: int): Option<Account>
    requires |a.book.cycles| > 0
  {
    if !PolicyOk(policy) then None
    else
      var b := a.(book := a.book.(policy := policy));
      WithIntent(b, EditUser(b.intent, expected, adminEnabled, OverQuota(b.book), now))
  }

  /** Crosses the boundaries up to `now`; a crossed boundary means a fresh cycle, so nothing is exceeded any more. */
  function Rollover(a: Account, now: int, offset: int): Option<Account>
    requires |a.book.cycles| > 0
  {
    match Settle(a.book.cycles, a.book.policy.resetDay, offset, now)
    case None => None
    case Some(cycles) =>
      if |cycles| == |a.book.cycles| then Some(a)
      else
        var b := a.(book := a.book.(cycles := cycles));
        WithIntent(b, Decide(b.intent, b.intent.adminEnabled, false, now))
  }

  /** What the collector reads of a user before a round. */
  function TargetOf(a: Account): Target
    requires |a.book.cycles| > 0
  {
    var c := Open(a.book.cycles);
    Target(a.cursor, a.book.total, c.accounted, c.offset)
  }

  /** The rest of a commit, once the cycles are settled. */
  function Record(a: Account, u: Update, now: int): Option<Account>
    requires |a.book.cycles| > 0
  {
    var b := a.(cursor := u.cursor, book := AddTraffic(a.book, u.delta, u.day));
    if OverQuota(b.book) && b.intent.quota == WithinLimit
    then WithIntent(b, Decide(b.intent, b.intent.adminEnabled, true, now))
    else Some(b)
  }

  /** One update of a collection round, stamped with the round's observation time. */
  function CommitTraffic(a: Account, u: Update, at: int, offset: int): Option<Account>
    requires |a.book.cycles| > 0
  {
    match Rollover(a, at, offset)
    case None => None
    case Some(b) => if |b.book.cycles| == 0 then None else Record(b, u, at)
  }

  function ResetTraffic(a: Account, cycle: nat, now: int): Option<Account> {
    match ResetCycle(a.book, cycle)
    case None => None
    case Some(book) =>
      var b := a.(book := book);
      WithIntent(b, Decide(b.intent, b.intent.adminEnabled, false, now))
  }

  // ---- what they keep ----

  /** The stored quota state is the comparison over unbounded integers. */
  lemma QuotaStateIsExact(a: Account)
    requires AccountOk(a)
    ensures var used := Open(a.book.cycles).accounted;
            a.intent.quota == Exceeded <==> a.book.policy.limit.Some? && used.up + used.down >= a.book.policy.limit.value
  {
    var used := Open(a.book.cycles).accounted;
    assert used.Counts();
    QuotaTestIsExact(a.book.policy.limit, used.up, used.down);
  }

  lemma FreshCycleIsWithin(b: Book)
    requires |b.cycles| > 0 && PolicyOk(b.policy) && Open(b.cycles).accounted == ZERO
    ensures !OverQuota(b)
  {
  }

  lemma CreateKeeps(policy: Policy, port: int, key: int, start: int, end: int, offset: int, now: int)
    requires PolicyOk(policy) && start < end
    ensures AccountOk(CreateAccount(policy, port, key, start, end, offset, now))
  {
    hide Inv, BookOk;
    var a := CreateAccount(policy, port, key, start, end, offset, now);
    OpenBookOk(policy, start, end, offset);
    CreatedOk(port, key, now);
    FreshCycleIsWithin(a.book);
  }

  lemma UpdateKeeps(a: Account, expected: int, policy: Policy, adminEnabled: bool, now: int)
    requires AccountOk(a)
    ensures var r := UpdateUser(a, expected, policy, adminEnabled, now);
            && (r.Some? <==> PolicyOk(policy) && a.intent.userRevision == expected && a.intent.lifecycle == Active)
            && (r.Some? ==> AccountOk(r.value) && Evolves(a.intent, r.value.intent) && r.value.cursor == a.cursor &&
                            r.value.book == a.book.(policy := policy) && r.value.intent.adminEnabled == adminEnabled)
  {
    hide Inv, Evolves, EditUser;
    if PolicyOk(policy) {
      EditUserKeeps(a.intent, expected, adminEnabled, OverQuota(a.book.(policy := policy)), now);
    }
  }

  /** How many operations a decision queues, and which. */
  lemma DecideAdds(a: Allocation, adminEnabled: bool, exceeded: bool, now: int)
    requires OpsOk(a)
    ensures var d := DecideTransition(a.lifecycle, a.adminEnabled, a.quota, adminEnabled, exceeded);
            var r := Decide(a, adminEnabled, exceeded, now);
            && r.Some? && OpsOk(r.value)
            && (if d.NeedsOperation() then
                  |r.value.ops| == |a.ops| + 1 && Last(r.value).presence == d.willBePresent && Some(Last(r.value).reason) == d.reason
                else r.value == a.(adminEnabled := adminEnabled, quota := d.quota))
  {
    hide Intend;
    var d := DecideTransition(a.lifecycle, a.adminEnabled, a.quota, adminEnabled, exceeded);
    if d.NeedsOperation() {
      IntendKeepsQueue(a, NewOp(a.desiredRevision + 1, d.willBePresent, Some(a.desiredVersion), d.reason.value, now));
    }
  }

  lemma SameEvolves(a: Allocation)
    ensures Evolves(a, a)
  {
  }

  /** What an account is made of, without looking inside. */
  lemma Parts(a: Account)
    requires AccountOk(a)
    ensures Inv(a.intent) && OpsOk(a.intent) && BookOk(a.book)
    ensures |a.book.cycles| > 0 && ChainOk(a.book.cycles) && PolicyOk(a.book.policy) && IsResetDay(a.book.policy.resetDay)
    ensures a.intent.lifecycle == Deleted ==> !a.intent.adminEnabled
    ensures Open(a.book.cycles).start < Open(a.book.cycles).end
  {
  }

  lemma HasOpenCycle(a: Account)
    requires AccountOk(a)
    ensures |a.book.cycles| > 0
  {
  }

  /** The decision of a transaction that emptied the open cycle. */
  lemma RestoreKeeps(a: Account, cycles: seq<Cycle>, now: int)
    requires AccountOk(a) && BookOk(a.book.(cycles := cycles)) && |cycles| > 0 && Open(cycles).accounted == ZERO
    ensures var r := Decide(a.intent, a.intent.adminEnabled, false, now);
            && r.Some? && Evolves(a.intent, r.value) && OpsOk(r.value) && r.value.quota == WithinLimit
            && AccountOk(a.(intent := r.value, book := a.book.(cycles := cycles)))
            && (var restores := a.intent.quota == Exceeded && a.intent.lifecycle == Active && a.intent.adminEnabled;
                && |r.value.ops| == |a.intent.ops| + (if restores then 1 else 0)
                && (restores ==> Last(r.value).presence && Last(r.value).reason == QuotaRestore))
  {
    Parts(a);
    hide Evolves, BookOk, Inv, OpsOk, ChainOk, Decide, OverQuota, PolicyOk;
    DecideKeeps(a.intent, a.intent.adminEnabled, false, now);
    DecideAdds(a.intent, a.intent.adminEnabled, false, now);
    FreshCycleIsWithin(a.book.(cycles := cycles));
  }

  /** A rollover settles the chain, never fails, and queues one operation exactly when it restores access: a boundary
      was crossed and quota was the only thing that kept an active, enabled user out. */
  lemma RolloverKeeps(a: Account, now: int, offset: int)
    requires AccountOk(a)
    ensures var r := Rollover(a, now, offset);
            && r.Some? && AccountOk(r.value) && Evolves(a.intent, r.value.intent)
            && r.value == a.(intent := r.value.intent, book := a.book.(cycles := r.value.book.cycles))
            && Some(r.value.book.cycles) == Settle(a.book.cycles, a.book.policy.resetDay, offset, now)
            && Open(r.value.book.cycles).end > now
            && var crossed := Open(a.book.cycles).end <= now;
               && (!crossed ==> r.value == a)
               && (crossed ==> Decide(a.intent, a.intent.adminEnabled, false, now) == Some(r.value.intent))
               && (crossed ==> r.value.intent.quota == WithinLimit)
               && var restores := crossed && a.intent.quota == Exceeded && a.intent.lifecycle == Active && a.intent.adminEnabled;
                  && |r.value.intent.ops| == |a.intent.ops| + (if restores then 1 else 0)
                  && (restores ==> Last(r.value.intent).presence && Last(r.value.intent).reason == QuotaRestore)
  {
    Parts(a);
    hide Settle, Evolves, BookOk, Inv, OpsOk, ChainOk, Extends, Decide, OverQuota, PolicyOk;
    SettleKeepsBook(a.book, offset, now);
    SettleKeepsChain(a.book.cycles, a.book.policy.resetDay, offset, now);
    if Open(a.book.cycles).end <= now {
      RestoreKeeps(a, Settle(a.book.cycles, a.book.policy.resetDay, offset, now).value, now);
    } else {
      SameEvolves(a.intent);
    }
  }

  lemma UsageGrows(b: Book, delta: Bytes, day: int)
    requires BookOk(b) && delta.Counts() && OverQuota(b)
    ensures OverQuota(AddTraffic(b, delta, day))
  {
    hide SumGross, SumDays, Upsert;
    var used := Open(b.cycles).accounted;
    assert used.Counts() && PolicyOk(b.policy);
    QuotaTestIsExact(b.policy.limit, used.up, used.down);
    QuotaTestIsExact(b.policy.limit, used.up + delta.up, used.down + delta.down);
  }

  lemma AddTrafficOpens(b: Book, delta: Bytes, day: int)
    requires |b.cycles| > 0
    ensures var r := AddTraffic(b, delta, day); |r.cycles| == |b.cycles| && Open(r.cycles).end == Open(b.cycles).end
  {
    hide Upsert;
  }

  /** Recording bytes blocks a user exactly when they bring the usage to the limit, and queues one removal exactly
      when that user was present. */
  lemma RecordKeeps(a: Account, u: Update, now: int)
    requires AccountOk(a) && u.delta.Counts() && a.book.total.Plus(u.delta).Fits()
    ensures var r := Record(a, u, now);
            && r.Some? && AccountOk(r.value) && Evolves(a.intent, r.value.intent)
            && r.value.cursor == u.cursor && r.value.book == AddTraffic(a.book, u.delta, u.day)
            && r.value.book.total == a.book.total.Plus(u.delta)
            && Open(r.value.book.cycles).end == Open(a.book.cycles).end
            && (a.intent.quota == Exceeded ==> r.value.intent == a.intent)
            && var blocks := a.intent.quota == WithinLimit && OverQuota(r.value.book) && a.intent.Desired();
               && |r.value.intent.ops| == |a.intent.ops| + (if blocks then 1 else 0)
               && (blocks ==> !Last(r.value.intent).presence && Last(r.value.intent).reason == QuotaBlock)
  {
    hide Evolves, BookOk, Inv, OpsOk, ChainOk, Decide, OverQuota, PolicyOk, AddTraffic, IsResetDay;
    Parts(a);
    AddTrafficOpens(a.book, u.delta, u.day);
    if a.intent.quota == Exceeded { UsageGrows(a.book, u.delta, u.day); }
    SameEvolves(a.intent);
    AddTrafficKeepsBook(a.book, u.delta, u.day);
    DecideKeeps(a.intent, a.intent.adminEnabled, true, now);
    DecideAdds(a.intent, a.intent.adminEnabled, true, now);
  }

  /** A commit first settles the cycles its samples fall beyond, then records. */
  lemma CommitKeeps(a: Account, u: Update, at: int, offset: int)
    requires AccountOk(a) && u.delta.Counts() && a.book.total.Plus(u.delta).Fits()
    ensures var r := CommitTraffic(a, u, at, offset);
            && r.Some? && AccountOk(r.value) && Evolves(a.intent, r.value.intent)
            && r.value.cursor == u.cursor && r.value.book.total == a.book.total.Plus(u.delta)
            && Open(r.value.book.cycles).end > at
  {
    hide AccountOk, Evolves, OpsOk, Rollover, Record, Settle, Inv, BookOk, Decide, OverQuota, AddTraffic;
    HasOpenCycle(a);
    RolloverKeeps(a, at, offset);
    var b := Rollover(a, at, offset).value;
    HasOpenCycle(b);
    RecordKeeps(b, u, at);
    EvolvesTransitively(a.intent, b.intent, Record(b, u, at).value.intent);
  }

  /** A manual reset succeeds exactly on the open cycle; it empties the accounted bytes, keeps the gross ones, and
      queues one operation exactly when it restores access. */
  lemma ResetKeeps(a: Account, cycle: nat, now: int)
    requires AccountOk(a)
    ensures var r := ResetTraffic(a, cycle, now);
            && (r.Some? <==> cycle == |a.book.cycles| - 1)
            && (r.Some? ==>
                  && AccountOk(r.value) && Evolves(a.intent, r.value.intent) && r.value.cursor == a.cursor
                  && r.value.book.total == a.book.total
                  && Open(r.value.book.cycles).accounted == ZERO && Open(r.value.book.cycles).gross == Open(a.book.cycles).gross
                  && r.value.intent.quota == WithinLimit
                  && var restores := a.intent.quota == Exceeded && a.intent.lifecycle == Active && a.intent.adminEnabled;
                     |r.value.intent.ops| == |a.intent.ops| + (if restores then 1 else 0))
  {
    Parts(a);
    hide BookOk, Evolves, Inv, OpsOk, Decide, OverQuota, PolicyOk;
    ResetKeepsBook(a.book, cycle);
    if cycle == |a.book.cycles| - 1 {
      FreshCycleIsWithin(ResetCycle(a.book, cycle).value);
      DecideKeeps(a.intent, a.intent.adminEnabled, false, now);
      DecideAdds(a.intent, a.intent.adminEnabled, false, now);
    }
  }

  // ---- the order of collections and rollovers ----

  /** The same intent, reached at other moments. */
  predicate SameOps(ops1: seq<Op>, ops2: seq<Op>) {
    |ops1| == |ops2| &&
    forall i :: 0 <= i < |ops1| ==> ops1[i].(nextAttempt := 0, createdAt := 0) == ops2[i].(nextAttempt := 0, createdAt := 0)
  }

  ghost predicate SameIntent(a: Allocation, b: Allocation) {
    a.(ops := []) == b.(ops := []) && SameOps(a.ops, b.ops)
  }

  ghost predicate SameAccount(a: Account, b: Account) {
    a.book == b.book && a.cursor == b.cursor && SameIntent(a.intent, b.intent)
  }

  lemma DecideTimeless(a: Allocation, b: Allocation, adminEnabled: bool, exceeded: bool, t1: int, t2: int)
    requires SameIntent(a, b) && OpsOk(a) && OpsOk(b)
    ensures var r1, r2 := Decide(a, adminEnabled, exceeded, t1), Decide(b, adminEnabled, exceeded, t2);
            r1.Some? && r2.Some? && SameIntent(r1.value, r2.value)
  {
    hide Intend;
    var d := DecideTransition(a.lifecycle, a.adminEnabled, a.quota, adminEnabled, exceeded);
    if d.NeedsOperation() {
      IntendTimeless(a, b, NewOp(a.desiredRevision + 1, d.willBePresent, Some(a.desiredVersion), d.reason.value, t1), t2);
    }
  }

  lemma SupersedeTimeless(ops1: seq<Op>, ops2: seq<Op>, revision: int)
    requires SameOps(ops1, ops2)
    ensures SameOps(SupersedeOlder(ops1, revision), SupersedeOlder(ops2, revision))
  {
  }

  lemma IntendTimeless(a: Allocation, b: Allocation, op: Op, t: int)
    requires SameIntent(a, b) && OpsOk(a) && OpsOk(b) && op.revision == a.desiredRevision + 1
    ensures var r1, r2 := Intend(a, op), Intend(b, op.(nextAttempt := t, createdAt := t));
            r1.Some? && r2.Some? && SameIntent(r1.value, r2.value)
  {
    hide SupersedeOlder;
    SupersedeTimeless(a.ops, b.ops, op.revision);
  }

  /** Deciding "nothing is exceeded" again changes nothing. */
  lemma RestoringTwice(a: Allocation, t: int)
    requires OpsOk(a) && a.quota == WithinLimit
    ensures Decide(a, a.adminEnabled, false, t) == Some(a)
  {
    DecideAdds(a, a.adminEnabled, false, t);
  }

  function Max(t1: int, t2: int): int { if t1 <= t2 then t2 else t1 }

  /** Settling at one instant and again at another gives the bounds, counters, quota state and operations of settling
      once, at the later one. */
  lemma RolloverTwice(a: Account, t1: int, t2: int, offset: int)
    requires AccountOk(a)
    ensures var first := Rollover(a, t1, offset);
            && first.Some? && AccountOk(first.value)
            && var second, once := Rollover(first.value, t2, offset), Rollover(a, Max(t1, t2), offset);
               && second.Some? && once.Some? && SameAccount(second.value, once.value)
               && AccountOk(second.value) && AccountOk(once.value)
  {
    hide AccountOk, Evolves, OpsOk, Rollover, Settle, Inv, BookOk, ChainOk, PolicyOk, Decide, OverQuota;
    Parts(a);
    SettleTwice(a.book.cycles, a.book.policy.resetDay, offset, t1, t2);
    RolloverKeeps(a, t1, offset);
    RolloverKeeps(a, Max(t1, t2), offset);
    var first := Rollover(a, t1, offset).value;
    RolloverKeeps(first, t2, offset);
    if Open(a.book.cycles).end <= t1 {
      DecideTimeless(a.intent, a.intent, a.intent.adminEnabled, false, t1, Max(t1, t2));
      DecideAdds(a.intent, a.intent.adminEnabled, false, t1);
      RestoringTwice(first.intent, t2);
    }
  }

  lemma RecordTimeless(a: Account, b: Account, u: Update, t: int)
    requires AccountOk(a) && AccountOk(b) && SameAccount(a, b)
    ensures |a.book.cycles| > 0 && |b.book.cycles| > 0
    ensures var r1, r2 := Record(a, u, t), Record(b, u, t); r1.Some? && r2.Some? && SameAccount(r1.value, r2.value)
  {
    Parts(a);
    Parts(b);
    hide AccountOk, OpsOk, Inv, BookOk, ChainOk, PolicyOk, Decide, OverQuota;
    DecideTimeless(a.intent, b.intent, a.intent.adminEnabled, true, t, t);
  }

  /** Recording nothing only moves the cursor. */
  lemma RecordNothing(a: Account, u: Update, t: int)
    requires AccountOk(a) && u.delta == ZERO
    ensures |a.book.cycles| > 0 && Record(a, u, t) == Some(a.(cursor := u.cursor))
  {
  }

  lemma ClosedCycleKeepsGross(a: Account, later: int, offset: int)
    requires AccountOk(a) && |a.book.cycles| > 0 && Open(a.book.cycles).end <= later
    ensures var r, n := Rollover(a, later, offset), |a.book.cycles|;
            r.Some? && AccountOk(r.value) && |r.value.book.cycles| > n && r.value.book.cycles[n - 1].gross == Open(a.book.cycles).gross
  {
    Parts(a);
    hide AccountOk, OpsOk, Inv, BookOk, ChainOk, PolicyOk, Decide, OverQuota, Settle, Rollover, Evolves;
    RolloverKeeps(a, later, offset);
    SettleKeepsChain(a.book.cycles, a.book.policy.resetDay, offset, later);
  }

  /** Where a commit's bytes go when a boundary is crossed after it: into the cycle that was open then. */
  lemma BytesStayInTheirCycle(a: Account, u: Update, t: int, later: int, offset: int)
    requires AccountOk(a) && u.delta.Counts() && a.book.total.Plus(u.delta).Fits()
    requires |a.book.cycles| > 0 && Open(a.book.cycles).end <= later && u.delta != ZERO
    ensures var r := Record(a, u, t);
            && r.Some? && |r.value.book.cycles| > 0
            && var rolled, other := Rollover(r.value, later, offset), Rollover(a, later, offset);
               && rolled.Some? && other.Some? && |other.value.book.cycles| > 0
               && rolled.value.book != AddTraffic(other.value.book, u.delta, u.day)
  {
    hide AccountOk, OpsOk, Inv, Decide, OverQuota, Rollover, Evolves, Record, Settle, Upsert;
    var n := |a.book.cycles|;
    RecordKeeps(a, u, t);
    var b := Record(a, u, t).value;
    assert |b.book.cycles| == n && Open(b.book.cycles).gross == Open(a.book.cycles).gross.Plus(u.delta);
    ClosedCycleKeepsGross(a, later, offset);
    ClosedCycleKeepsGross(b, later, offset);
    var other := Rollover(a, later, offset).value;
    assert AddTraffic(other.book, u.delta, u.day).cycles[n - 1] == other.book.cycles[n - 1];
    assert Open(b.book.cycles).gross != Open(a.book.cycles).gross;
  }

  /** Without a boundary in between, a rollover neither before nor after a commit makes a difference. */
  lemma NothingInBetween(a: Account, u: Update, t: int, roll: int, offset: int)
    requires AccountOk(a) && u.delta.Counts() && a.book.total.Plus(u.delta).Fits() && |a.book.cycles| > 0
    requires var r := Rollover(a, t, offset); r.Some? && |r.value.book.cycles| > 0 && Open(r.value.book.cycles).end > roll
    ensures var c, r := CommitTraffic(a, u, t, offset), Rollover(a, roll, offset);
            && c.Some? && r.Some? && |c.value.book.cycles| > 0 && |r.value.book.cycles| > 0
            && Rollover(c.value, roll, offset) == c
            && var d := CommitTraffic(r.value, u, t, offset);
               d.Some? && SameAccount(c.value, d.value)
  {
    hide AccountOk, OpsOk, Inv, Decide, OverQuota, Rollover, Evolves, Record, Settle, AddTraffic, SameIntent;
    RolloverKeeps(a, t, offset);
    var s := Rollover(a, t, offset).value;
    RecordKeeps(s, u, t);
    HasOpenCycle(Record(s, u, t).value);
    RolloverKeeps(Record(s, u, t).value, roll, offset);
    RolloverKeeps(a, roll, offset);
    var r := Rollover(a, roll, offset).value;
    HasOpenCycle(r);
    RolloverKeeps(r, t, offset);
    RolloverTwice(a, roll, t, offset);
    RolloverTwice(a, t, roll, offset);
    RolloverKeeps(s, roll, offset);
    SameIsSymmetric(Rollover(s, roll, offset).value, Rollover(a, Max(t, roll), offset).value);
    SameIsTransitive(Rollover(r, t, offset).value, Rollover(a, Max(t, roll), offset).value, s);
    SameIsSymmetric(Rollover(r, t, offset).value, s);
    RecordTimeless(s, Rollover(r, t, offset).value, u, t);
  }

  lemma SameIsSymmetric(a: Account, b: Account)
    requires SameAccount(a, b)
    ensures SameAccount(b, a)
  {
  }

  lemma SameIsTransitive(a: Account, b: Account, c: Account)
    requires SameAccount(a, b) && SameAccount(b, c)
    ensures SameAccount(a, c)
  {
  }

  /** An empty commit commutes with everything. */
  lemma EmptyCommitCommutes(a: Account, u: Update, t: int, roll: int, offset: int)
    requires AccountOk(a) && u.delta == ZERO && t <= roll && |a.book.cycles| > 0
    ensures var c, r := CommitTraffic(a, u, t, offset), Rollover(a, roll, offset);
            && c.Some? && r.Some? && |c.value.book.cycles| > 0 && |r.value.book.cycles| > 0
            && var first, second := Rollover(c.value, roll, offset), CommitTraffic(r.value, u, t, offset);
               first.Some? && second.Some? && SameAccount(first.value, second.value)
  {
    hide AccountOk, OpsOk, Inv, Decide, OverQuota, Evolves, Record, Settle, AddTraffic, SameIntent;
    RolloverKeeps(a, t, offset);
    RolloverKeeps(a, roll, offset);
    var s, r := Rollover(a, t, offset).value, Rollover(a, roll, offset).value;
    HasOpenCycle(s);
    HasOpenCycle(r);
    RecordNothing(s, u, t);
    RolloverKeeps(r, t, offset);
    RecordNothing(r, u, t);
    RolloverTwice(a, t, roll, offset);
    assert Rollover(s.(cursor := u.cursor), roll, offset) == Some(Rollover(s, roll, offset).value.(cursor := u.cursor));
  }

  /** Collecting and then rolling over ends in the same books as rolling over and then collecting exactly when the
      round moved no bytes or no boundary lies between its observation and the rollover; then the intent is the same
      too. */
  lemma CollectionAndRolloverCommute(a: Account, u: Update, t: int, roll: int, offset: int)
    requires AccountOk(a) && u.delta.Counts() && a.book.total.Plus(u.delta).Fits() && |a.book.cycles| > 0
    ensures var c, s, r := CommitTraffic(a, u, t, offset), Rollover(a, t, offset), Rollover(a, roll, offset);
            && c.Some? && s.Some? && r.Some?
            && |c.value.book.cycles| > 0 && |s.value.book.cycles| > 0 && |r.value.book.cycles| > 0
            && var first, second := Rollover(c.value, roll, offset), CommitTraffic(r.value, u, t, offset);
               && first.Some? && second.Some?
               && (first.value.book == second.value.book <==> u.delta == ZERO || Open(s.value.book.cycles).end > roll)
               && (first.value.book == second.value.book ==> SameAccount(first.value, second.value))
  {
    hide AccountOk, OpsOk, Inv, Decide, OverQuota, Evolves, Record, Settle, AddTraffic, SameIntent, Rollover;
    RolloverKeeps(a, t, offset);
    RolloverKeeps(a, roll, offset);
    var s, r := Rollover(a, t, offset).value, Rollover(a, roll, offset).value;
    HasOpenCycle(s);
    HasOpenCycle(r);
    CommitKeeps(a, u, t, offset);
    HasOpenCycle(CommitTraffic(a, u, t, offset).value);
    if Open(s.book.cycles).end > roll {
      NothingInBetween(a, u, t, roll, offset);
    } else if u.delta == ZERO {
      EmptyCommitCommutes(a, u, t, roll, offset);
    } else {
      RolloverKeeps(r, t, offset);
      RecordKeeps(r, u, t);
      RolloverTwice(a, t, roll, offset);
      BytesStayInTheirCycle(s, u, t, roll, offset);
    }
  }
}
