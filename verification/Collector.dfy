/** A collection round from the database and back: who is metered, what their counters became, all written at once. */
module Collector {
  import opened Domain
  import opened Calendar
  import opened Intent
  import opened Ledger
  import opened Quota
  import opened Metering
  import opened Collection
  import opened Capability
  import opened Store

  /** Only users the node is known to serve are asked for. */
  predicate IsTarget(u: User) {
    u.account.intent.lifecycle == Active && u.account.intent.projection == Present && !u.account.intent.inbound.released
  }

  /** The last snapshot of an identity and direction; a counter nobody reported is missing. */
  function SampleOf(snapshots: seq<Collection.Snapshot>, id: string, d: Direction): Sample {
    if snapshots == [] then Missing
    else
      var last := snapshots[|snapshots| - 1];
      if last.id == id && last.direction == d then last.sample else SampleOf(snapshots[..|snapshots| - 1], id, d)
  }

  // ---- a round, said of the snapshots and the rows alone ----

  predicate About(s: Collection.Snapshot, id: string, d: Direction) { s.id == id && s.direction == d }

  /** The snapshots hold one counter of that identity and direction, and it says so. */
  predicate Reports(snapshots: seq<Collection.Snapshot>, id: string, d: Direction, bytes: int) {
    exists k :: 0 <= k < |snapshots| && About(snapshots[k], id, d) && snapshots[k].sample == Found(bytes) &&
                forall j :: 0 <= j < |snapshots| && About(snapshots[j], id, d) ==> j == k
  }

  /** They hold none, or only ones that were not found. */
  predicate Silent(snapshots: seq<Collection.Snapshot>, id: string, d: Direction) {
    forall k :: 0 <= k < |snapshots| && About(snapshots[k], id, d) ==> snapshots[k].sample == Missing
  }

  predicate AllUnsigned(snapshots: seq<Collection.Snapshot>) {
    forall k :: 0 <= k < |snapshots| && snapshots[k].sample.Found? ==> snapshots[k].sample.bytes >= 0
  }

  /** What a counter adds: all of it if there was none before or the node restarted, nothing if it fell, the difference
      otherwise; and nothing at all if the lifetime total has no room for it. */
  function Gain(c: DirectionCursor, bytes: int, restarted: bool, total: int): int {
    var raw := if c.counter.None? || restarted then bytes else if bytes < c.counter.value then 0 else bytes - c.counter.value;
    if total + raw <= MAX_INT64 then raw else 0
  }

  predicate Restarted(stored: Option<int>, o: Observation, interval: int) {
    o.known && stored.Some? && !(stored.value - interval <= o.boot <= stored.value + interval)
  }

  /** One direction of a user's rows after a round: the stored counter, and the bytes gained in total. */
  ghost predicate Moves(a: Account, b: Account, snapshots: seq<Collection.Snapshot>, id: string, d: Direction, o: Observation, interval: int) {
    var c, c' := Way(a.cursor, d), Way(b.cursor, d);
    var gained := Side(b.book.total, d) - Side(a.book.total, d);
    && (forall bytes :: Reports(snapshots, id, d, bytes) ==>
          if bytes > MAX_INT64 then c'.counter == c.counter && gained == 0
          else c'.counter == Some(bytes) && gained == Gain(c, bytes, Restarted(a.cursor.boot, o, interval), Side(a.book.total, d)))
    && (Silent(snapshots, id, d) ==> c' == c && gained == 0)
  }

  /** The midnight, in the zone of the cycle, of the day of that instant. */
  predicate IsDayOf(start: int, at: int, zone: int) {
    start <= at < start + 86_400_000 && (start + zone) % 86_400_000 == 0
  }

  /** The bytes gained are in the row of the day and in the open cycle, which is a new one if its end was passed. */
  ghost predicate Booked(a: Account, b: Account, at: int)
    requires |a.book.cycles| > 0 && |b.book.cycles| > 0
  {
    var gained := Bytes(b.book.total.up - a.book.total.up, b.book.total.down - a.book.total.down);
    var before, after := Open(a.book.cycles), Open(b.book.cycles);
    && after.end > at
    && (if before.end <= at then after.accounted == gained && after.gross == gained
        else after.accounted == before.accounted.Plus(gained) && after.gross == before.gross.Plus(gained))
    && (forall day :: BytesOn(b.book.days, day) ==
                      if IsDayOf(day, at, before.offset) then BytesOn(a.book.days, day).Plus(gained) else BytesOn(a.book.days, day))
  }

  /** What a committed round makes of a user: nothing if the node is not known to serve it or the round is older than what it
      has; otherwise the cursor moves to the round, each direction by its own counter, and the books with it. */
  ghost predicate RoundMoves(u: User, v: User, snapshots: seq<Collection.Snapshot>, o: Observation, interval: int) {
    var a, b, i := u.account, v.account, u.account.intent;
    var asked := i.lifecycle == Active && i.projection == Present && !i.inbound.released;
    var late := a.cursor.at.Some? && o.at < a.cursor.at.value;
    && v == u.(account := b)
    && (!asked || late ==> v == u)
    && (asked && !late ==> b.cursor.at == Some(o.at))
    && (asked && !late && AccountOk(a) && AllUnsigned(snapshots) ==>
          && |a.book.cycles| > 0 && |b.book.cycles| > 0
          && Moves(a, b, snapshots, u.identity, Uplink, o, interval)
          && Moves(a, b, snapshots, u.identity, Downlink, o, interval)
          && Booked(a, b, o.at))
  }

  lemma {:induction false} SampleIs(snapshots: seq<Collection.Snapshot>, id: string, d: Direction)
    ensures forall bytes :: Reports(snapshots, id, d, bytes) ==> SampleOf(snapshots, id, d) == Found(bytes)
    ensures Silent(snapshots, id, d) ==> SampleOf(snapshots, id, d) == Missing
    ensures AllUnsigned(snapshots) && SampleOf(snapshots, id, d).Found? ==> SampleOf(snapshots, id, d).bytes >= 0
  {
    if snapshots != [] {
      var n := |snapshots| - 1;
      var front := snapshots[..n];
      SampleIs(front, id, d);
      assert forall k :: 0 <= k < n ==> front[k] == snapshots[k];
      forall bytes | Reports(snapshots, id, d, bytes) ensures SampleOf(snapshots, id, d) == Found(bytes) {
        var k :| 0 <= k < |snapshots| && About(snapshots[k], id, d) && snapshots[k].sample == Found(bytes) &&
                 forall j :: 0 <= j < |snapshots| && About(snapshots[j], id, d) ==> j == k;
        if k < n {
          assert About(front[k], id, d) && forall j :: 0 <= j < |front| && About(front[j], id, d) ==> j == k;
          assert Reports(front, id, d, bytes);
        }
      }
    }
  }

  function UpdateFor(u: User, snapshots: seq<Collection.Snapshot>, o: Observation, interval: int): Option<Update>
    requires |u.account.book.cycles| > 0
  {
    if !IsTarget(u) then None
    else BuildUpdate(TargetOf(u.account), SampleOf(snapshots, u.identity, Uplink), SampleOf(snapshots, u.identity, Downlink), o, interval)
  }

  // ---- how the rows come to that ----

  /** One direction of an update. */
  lemma UpdateMoves(t: Target, up: Sample, down: Sample, o: Observation, interval: int, d: Direction)
    requires t.total.Fits() && 0 <= t.accounted.up <= t.total.up && 0 <= t.accounted.down <= t.total.down
    requires (up.Found? ==> up.bytes >= 0) && (down.Found? ==> down.bytes >= 0)
    requires BuildUpdate(t, up, down, o, interval).Some?
    ensures var u, s, c := BuildUpdate(t, up, down, o, interval).value, if d == Uplink then up else down, Way(t.cursor, d);
            match s
            case Missing => Way(u.cursor, d) == c && Side(u.delta, d) == 0
            case Found(bytes) =>
              if bytes > MAX_INT64 then Way(u.cursor, d).counter == c.counter && Side(u.delta, d) == 0
              else Way(u.cursor, d).counter == Some(bytes) &&
                   Side(u.delta, d) == Gain(c, bytes, Restarted(t.cursor.boot, o, interval), Side(t.total, d))
  {
    hide Guarded, WholeSeconds;
    var restart := RestartConfirmed(t.cursor.boot, o.boot, o.known, interval);
    assert restart == Restarted(t.cursor.boot, o, interval);
    OnlyTheTotalGuards(t.total.up, t.accounted.up, ApplySample(t.cursor.up, up, restart).bytes);
    OnlyTheTotalGuards(t.total.down, t.accounted.down, ApplySample(t.cursor.down, down, restart).bytes);
  }

  lemma AddedTraffic(b: Book, delta: Bytes, day: int)
    requires |b.cycles| > 0
    ensures var after := AddTraffic(b, delta, day);
            && |after.cycles| > 0 && after.total == b.total.Plus(delta) && Open(after.cycles).end == Open(b.cycles).end
            && Open(after.cycles).accounted == Open(b.cycles).accounted.Plus(delta)
            && Open(after.cycles).gross == Open(b.cycles).gross.Plus(delta)
            && forall s :: BytesOn(after.days, s) == if s == day then BytesOn(b.days, s).Plus(delta) else BytesOn(b.days, s)
  {
    hide BytesOn, Upsert;
    forall s ensures BytesOn(Upsert(b.days, day, delta), s) == if s == day then BytesOn(b.days, s).Plus(delta) else BytesOn(b.days, s) {
      UpsertMovesOneDay(b.days, day, delta, s);
    }
  }

  lemma TheDayOf(at: int, zone: int, day: int)
    ensures IsDayOf(day, at, zone) <==> day == DayStart(at, zone)
  {
    if IsDayOf(day, at, zone) { assert (day + zone) / 86_400_000 == (at + zone) / 86_400_000; }
  }

  lemma SettledAccount(a: Account, at: int, offset: int)
    requires AccountOk(a)
    ensures var r := Rollover(a, at, offset);
            && r.Some? && AccountOk(r.value) && |a.book.cycles| > 0 && |r.value.book.cycles| > 0
            && r.value.book.total == a.book.total && r.value.book.days == a.book.days && r.value.cursor == a.cursor
            && Open(r.value.book.cycles).end > at
            && (if Open(a.book.cycles).end <= at
                then Open(r.value.book.cycles).accounted == ZERO && Open(r.value.book.cycles).gross == ZERO
                else r.value == a)
  {
    hide Settle, Evolves, BookOk, Inv, OpsOk, ChainOk, Decide, OverQuota, PolicyOk;
    Parts(a);
    RolloverKeeps(a, at, offset);
    SettleKeepsChain(a.book.cycles, a.book.policy.resetDay, offset, at);
  }

  lemma CommitBooks(a: Account, u: Update, at: int, offset: int)
    requires AccountOk(a) && |a.book.cycles| > 0 && u.delta.Counts() && a.book.total.Plus(u.delta).Fits()
    requires u.day == DayStart(at, Open(a.book.cycles).offset)
    ensures var r := CommitTraffic(a, u, at, offset);
            && r.Some? && |r.value.book.cycles| > 0 && r.value.cursor == u.cursor
            && r.value.book.total == a.book.total.Plus(u.delta) && Booked(a, r.value, at)
  {
    hide AccountOk, Evolves, OpsOk, Rollover, Record, Settle, Inv, BookOk, Decide, OverQuota, AddTraffic, DayStart, BytesOn, IsDayOf;
    SettledAccount(a, at, offset);
    var mid := Rollover(a, at, offset).value;
    RecordKeeps(mid, u, at);
    AddedTraffic(mid.book, u.delta, u.day);
    forall day ensures IsDayOf(day, at, Open(a.book.cycles).offset) <==> day == u.day { TheDayOf(at, Open(a.book.cycles).offset, day); }
  }

  lemma TargetFits(a: Account)
    requires AccountOk(a)
    ensures |a.book.cycles| > 0
    ensures var t := TargetOf(a); t.total.Fits() && 0 <= t.accounted.up <= t.total.up && 0 <= t.accounted.down <= t.total.down
  {
    hide Inv, SumGross, SumDays;
    EverythingFits(a.book);
  }

  lemma AfterMoves(u: User, v: User, snapshots: seq<Collection.Snapshot>, o: Observation, interval: int, offset: int)
    requires After(u, v, snapshots, o, interval, offset)
    ensures RoundMoves(u, v, snapshots, o, interval)
  {
    hide SampleOf, CommitTraffic, AccountOk, Booked, DayStart, Moves;
    var a, t := u.account, TargetOf(u.account);
    var up, down := SampleOf(snapshots, u.identity, Uplink), SampleOf(snapshots, u.identity, Downlink);
    var update := UpdateFor(u, snapshots, o, interval);
    if update.Some? {
      CommitMovesCursor(a, update.value, o.at, offset);
      if AccountOk(a) && AllUnsigned(snapshots) {
        SampleIs(snapshots, u.identity, Uplink);
        SampleIs(snapshots, u.identity, Downlink);
        TargetFits(a);
        UpdateIsSound(t, up, down, o, interval);
        CommitBooks(a, update.value, o.at, offset);
        OneWay(a, v.account, up, down, snapshots, u.identity, o, interval, Uplink);
        OneWay(a, v.account, up, down, snapshots, u.identity, o, interval, Downlink);
      }
    }
  }

  lemma CommitMovesCursor(a: Account, u: Update, at: int, offset: int)
    requires |a.book.cycles| > 0
    ensures var r := CommitTraffic(a, u, at, offset); r.Some? ==> r.value.cursor == u.cursor
  {
    hide Settle, Decide, OverQuota, AddTraffic;
  }

  lemma OneWay(a: Account, b: Account, up: Sample, down: Sample, snapshots: seq<Collection.Snapshot>, id: string, o: Observation,
               interval: int, d: Direction)
    requires |a.book.cycles| > 0 && BuildUpdate(TargetOf(a), up, down, o, interval).Some?
    requires var t := TargetOf(a); t.total.Fits() && 0 <= t.accounted.up <= t.total.up && 0 <= t.accounted.down <= t.total.down
    requires (up.Found? ==> up.bytes >= 0) && (down.Found? ==> down.bytes >= 0)
    requires var u := BuildUpdate(TargetOf(a), up, down, o, interval).value;
             b.cursor == u.cursor && b.book.total == a.book.total.Plus(u.delta)
    requires var s := if d == Uplink then up else down;
             (forall bytes :: Reports(snapshots, id, d, bytes) ==> s == Found(bytes)) && (Silent(snapshots, id, d) ==> s == Missing)
    ensures Moves(a, b, snapshots, id, d, o, interval)
  {
    hide BuildUpdate, Gain, Reports, Silent;
    UpdateMoves(TargetOf(a), up, down, o, interval, d);
  }

  function AfterLook(r: Registry, look: Signal): Registry {
    MarkHealthy(Advance(r, look.(suspected := false)), if look.known then Some(WholeSeconds(look.boot)) else None)
  }

  /** A look of the collector, which is never suspicious, moves the generation exactly when it shows another process: an epoch
      more than a second from the anchor, or an uptime behind one seen before. It then moves the anchor to that process. */
  lemma LookMovesExactlyWhen(r: Registry, look: Signal)
    requires r.anchor.Some?
    ensures var after := AfterLook(r, look);
            var other := look.known && (look.boot > r.anchor.value + 1000 || look.boot < r.anchor.value - 1000 ||
                                        (r.uptime > 0 && look.uptime < r.uptime));
            && after.generation == (if other then r.generation + 1 else r.generation)
            && after.anchor == (if other then Some(WholeSeconds(look.boot)) else r.anchor)
            && after.templates == r.templates
            && (look.known && !other ==> after.uptime >= look.uptime && after.uptime >= r.uptime)
  {
  }

  // ---- a batch is its updates, one by one ----

  ghost predicate OncePerUser(updates: seq<(nat, Update)>, n: nat) {
    && (forall k :: 0 <= k < |updates| ==> updates[k].0 < n)
    && (forall j, k :: 0 <= j < k < |updates| ==> updates[j].0 != updates[k].0)
  }

  ghost predicate Metered(users: seq<User>) {
    forall i :: 0 <= i < |users| ==> |users[i].account.book.cycles| > 0
  }

  /** Since a round has at most one update for a user, every user ends as its own update alone would leave it. */
  lemma {:induction false} BatchIsPointwise(users: seq<User>, updates: seq<(nat, Update)>, at: int, offset: int)
    requires Metered(users) && OncePerUser(updates, |users|) && CommitAll(users, updates, at, offset).Some?
    ensures var r := CommitAll(users, updates, at, offset).value;
            && |r| == |users|
            && (forall k :: 0 <= k < |updates| ==>
                  var (i, u) := updates[k];
                  CommitTraffic(users[i].account, u, at, offset).Some? &&
                  r[i] == users[i].(account := CommitTraffic(users[i].account, u, at, offset).value))
            && (forall i :: 0 <= i < |users| && (forall k :: 0 <= k < |updates| ==> updates[k].0 != i) ==> r[i] == users[i])
  {
    hide CommitTraffic;
    if updates != [] {
      var n := |updates| - 1;
      BatchIsPointwise(users, updates[..n], at, offset);
    }
  }

  datatype Outcome = Idle | Unreadable | Discarded | Rejected | Committed(at: int, blocked: nat, restored: nat)

  class Collector {
    const db: Database
    const interval: int

    constructor (db: Database, interval: int)
      ensures this.db == db && this.interval == if interval <= 0 then 5000 else interval
    {
      this.db := db;
      this.interval := if interval <= 0 then 5000 else interval;
    }

    /** A round is committed as a whole or not at all. Committed, every user the node serves is settled, metered and
        judged by its own counters, and nobody else is touched; a round whose batches straddle a restart changes no
        user and is taken as proof of the restart. With nobody to ask for, the node is only probed. `clock` stands in for
        an observation without a time. */
    method CollectOnce(probe: Option<Signal>, answers: seq<Option<Batch>>, clock: int)
      returns (r: Outcome, ghost heard: seq<Collection.Snapshot>, ghost o: Observation)
      requires db.Valid() && |answers| >= (|db.users| + BATCH - 1) / BATCH
      modifies db`users, db`anchor, db`generation, db`uptime
      ensures db.Valid() && |db.users| == |old(db.users)|
      ensures !r.Committed? ==> db.users == old(db.users)
      ensures r.Idle? <==> probe.Some? && forall i :: 0 <= i < |old(db.users)| ==> !IsTarget(old(db.users)[i])
      ensures r.Idle? ==> db.Gate() == AfterLook(old(db.Gate()), probe.value)
      ensures db.generation >= old(db.generation)
      ensures r.Committed? ==>
                o.at == r.at && forall i :: 0 <= i < |old(db.users)| ==> After(old(db.users)[i], db.users[i], heard, o, interval, db.offset)
      ensures r.Committed? ==> TotalOps(db.users) == TotalOps(old(db.users)) + r.blocked + r.restored
      ensures r.Committed? ==> TotalFor(db.users, QuotaBlock) == TotalFor(old(db.users), QuotaBlock) + r.blocked
      ensures r.Committed? ==> TotalFor(db.users, QuotaRestore) == TotalFor(old(db.users), QuotaRestore) + r.restored
      ensures r.Committed? ==> AllMove(old(db.users), db.users, heard, o, interval)
    {
      hide AllMove, TotalFor;
      hide CommitAll, BuildUpdate, CommitTraffic, PortsDistinct, AfterLook, AllJoin, Built, OncePerUser, After;
      heard, o := [], Observation(clock, 0, false);
      ghost var before := db.users;
      var targets, ids := Targets();
      if targets == [] {
        if probe.None? { return Unreadable, heard, o; }
        TakeLook(probe.value);
        return Idle, heard, o;
      }
      assert targets[0] in targets;
      var merge, _ := ReadAll(ids, answers);
      match merge {
        case Failed => return Unreadable, heard, o;
        case Inconsistent(last) =>
          NoteRestart(last);
          return Discarded, heard, o;
        case Merged(observation, snapshots) =>
          var at := if observation.at.Some? then observation.at.value else clock;
          heard, o := snapshots, Observation(at, observation.boot, observation.known);
          r := CommitRound(targets, snapshots, Observation(at, observation.boot, observation.known));
          if r.Committed? {
            TakeLook(Signal(observation.boot, observation.uptime, observation.known, false));
          }
      }
    }

    /** Every look at the node also moves the capability gate. */
    method TakeLook(look: Signal)
      modifies db`anchor, db`generation, db`uptime
      ensures db.Gate() == AfterLook(old(db.Gate()), look) && db.generation >= old(db.generation)
    {
      var _, _ := db.AdvanceCapabilityGeneration(look.(suspected := false));
      db.MarkInstanceHealthy(if look.known then Some(WholeSeconds(look.boot)) else None);
    }

    /** Builds and writes a round's updates. */
    method CommitRound(targets: seq<nat>, snapshots: seq<Collection.Snapshot>, o: Observation) returns (r: Outcome)
      requires db.Valid()
      requires forall k :: 0 <= k < |targets| ==> targets[k] < |db.users| && IsTarget(db.users[targets[k]])
      requires forall j, k :: 0 <= j < k < |targets| ==> targets[j] != targets[k]
      requires forall j: nat :: j < |db.users| && IsTarget(db.users[j]) ==> j in targets
      modifies db`users
      ensures db.Valid() && |db.users| == |old(db.users)| && (r.Rejected? || r.Committed?)
      ensures r.Rejected? ==> db.users == old(db.users)
      ensures r.Committed? ==>
                && r.at == o.at
                && (forall i :: 0 <= i < |old(db.users)| ==> After(old(db.users)[i], db.users[i], snapshots, o, interval, db.offset))
                && TotalOps(db.users) == TotalOps(old(db.users)) + r.blocked + r.restored
                && TotalFor(db.users, QuotaBlock) == TotalFor(old(db.users), QuotaBlock) + r.blocked
                && TotalFor(db.users, QuotaRestore) == TotalFor(old(db.users), QuotaRestore) + r.restored
      ensures r.Committed? ==> AllMove(old(db.users), db.users, snapshots, o, interval)
    {
      hide AllMove, TotalFor;
      hide CommitAll, BuildUpdate, CommitTraffic, PortsDistinct, Built, OncePerUser, After;
      ghost var before := db.users;
      var updates := BuildUpdates(targets, snapshots, o);
      MeansInRange(updates, |db.users|);
      var ok, blocked, restored := db.CommitTrafficBatch(updates, o.at);
      if !ok { return Rejected; }
      EveryUserAfter(before, db.users, targets, updates, snapshots, o, interval, db.offset);
      EveryUserMoves(before, db.users, snapshots, o, interval, db.offset);
      return Committed(o.at, blocked, restored);
    }

    /** Everybody to be asked for, once each, with the identity to ask for. */
    method Targets() returns (targets: seq<nat>, ids: seq<string>)
      ensures |targets| == |ids| <= |db.users|
      ensures forall k :: 0 <= k < |targets| ==> targets[k] < |db.users| && IsTarget(db.users[targets[k]]) && ids[k] == db.users[targets[k]].identity
      ensures forall j, k :: 0 <= j < k < |targets| ==> targets[j] != targets[k]
      ensures forall j: nat :: j < |db.users| && IsTarget(db.users[j]) ==> j in targets
    {
      targets, ids := [], [];
      for i := 0 to |db.users|
        invariant |targets| == |ids| <= i
        invariant forall k :: 0 <= k < |targets| ==> targets[k] < i && IsTarget(db.users[targets[k]]) && ids[k] == db.users[targets[k]].identity
        invariant forall j, k :: 0 <= j < k < |targets| ==> targets[j] != targets[k]
        invariant forall j: nat :: j < i && IsTarget(db.users[j]) ==> j in targets
      {
        if IsTarget(db.users[i]) { targets, ids := targets + [i], ids + [db.users[i].identity]; }
      }
    }

    /** A restart between two batches is taken as confirmed, however small the difference of the epochs. */
    method NoteRestart(last: BatchObservation)
      modifies db`anchor, db`generation, db`uptime
      ensures last.known && old(db.anchor).Some? ==> db.generation == old(db.generation) + 1
      ensures db.generation >= old(db.generation)
    {
      if last.known {
        var _, _ := db.AdvanceCapabilityGeneration(Signal(WholeSeconds(last.boot), 0, true, true));
      }
      db.MarkInstanceHealthy(if last.known then Some(WholeSeconds(last.boot)) else None);
    }

    /** One update per target, late samples left out. */
    method BuildUpdates(targets: seq<nat>, snapshots: seq<Collection.Snapshot>, o: Observation) returns (updates: seq<(nat, Update)>)
      requires db.Valid()
      requires forall k :: 0 <= k < |targets| ==> targets[k] < |db.users| && IsTarget(db.users[targets[k]])
      requires forall j, k :: 0 <= j < k < |targets| ==> targets[j] != targets[k]
      ensures OncePerUser(updates, |db.users|)
      ensures Built(db.users, targets, updates, snapshots, o, interval)
    {
      updates := [];
      BuiltNothing(db.users, snapshots, o, interval);
      for n := 0 to |targets|
        invariant OncePerUser(updates, |db.users|)
        invariant forall k :: 0 <= k < |updates| ==> updates[k].0 in targets[..n]
        invariant Built(db.users, targets[..n], updates, snapshots, o, interval)
      {
        hide UpdateFor, Built, OncePerUser, PortsDistinct;
        var i := targets[n];
        assert targets[..n + 1] == targets[..n] + [i];
        assert i !in targets[..n];
        var u := UpdateFor(db.users[i], snapshots, o, interval);
        BuiltNext(db.users, targets[..n], updates, snapshots, o, interval, i);
        if u.Some? {
          OnceNext(updates, |db.users|, i, u.value);
          updates := updates + [(i, u.value)];
        }
      }
      assert targets[..|targets|] == targets;
    }
  }

  /** The updates of some targets: all that are not late, and nothing else. */
  ghost predicate Built(users: seq<User>, targets: seq<nat>, updates: seq<(nat, Update)>, snapshots: seq<Collection.Snapshot>,
                        o: Observation, interval: int) {
    && Metered(users)
    && (forall i :: i in targets ==> i < |users|)
    && (forall k :: 0 <= k < |updates| ==>
          updates[k].0 in targets && UpdateFor(users[updates[k].0], snapshots, o, interval) == Some(updates[k].1))
    && (forall i :: i in targets && UpdateFor(users[i], snapshots, o, interval).Some? ==>
          exists k :: 0 <= k < |updates| && updates[k].0 == i)
  }

  lemma BuiltNothing(users: seq<User>, snapshots: seq<Collection.Snapshot>, o: Observation, interval: int)
    requires Metered(users)
    ensures Built(users, [], [], snapshots, o, interval)
  {
  }

  lemma BuiltNext(users: seq<User>, targets: seq<nat>, updates: seq<(nat, Update)>, snapshots: seq<Collection.Snapshot>,
                  o: Observation, interval: int, i: nat)
    requires Built(users, targets, updates, snapshots, o, interval) && i < |users|
    ensures |users[i].account.book.cycles| > 0
    ensures var u := UpdateFor(users[i], snapshots, o, interval);
            Built(users, targets + [i], if u.Some? then updates + [(i, u.value)] else updates, snapshots, o, interval)
  {
    hide UpdateFor;
    var u := UpdateFor(users[i], snapshots, o, interval);
    var more := if u.Some? then updates + [(i, u.value)] else updates;
    forall j | j in targets + [i] && UpdateFor(users[j], snapshots, o, interval).Some?
      ensures exists k :: 0 <= k < |more| && more[k].0 == j
    {
      if j in targets {
        var k :| 0 <= k < |updates| && updates[k].0 == j;
        assert more[k].0 == j;
      } else {
        assert more[|updates|].0 == j;
      }
    }
  }

  lemma OnceNext(updates: seq<(nat, Update)>, n: nat, i: nat, u: Update)
    requires OncePerUser(updates, n) && i < n && forall k :: 0 <= k < |updates| ==> updates[k].0 != i
    ensures OncePerUser(updates + [(i, u)], n)
  {
  }

  lemma MeansInRange(updates: seq<(nat, Update)>, n: nat)
    requires OncePerUser(updates, n)
    ensures forall k :: 0 <= k < |updates| ==> updates[k].0 < n
  {
  }

  /** What a committed round makes of one user. */
  ghost predicate After(u: User, v: User, snapshots: seq<Collection.Snapshot>, o: Observation, interval: int, offset: int) {
    |u.account.book.cycles| > 0 &&
    match UpdateFor(u, snapshots, o, interval)
    case None => v == u
    case Some(update) =>
      var a := CommitTraffic(u.account, update, o.at, offset);
      a.Some? && v == u.(account := a.value)
  }

  ghost predicate AllMove(before: seq<User>, after: seq<User>, snapshots: seq<Collection.Snapshot>, o: Observation, interval: int) {
    |after| == |before| && forall i :: 0 <= i < |before| ==> RoundMoves(before[i], after[i], snapshots, o, interval)
  }

  lemma EveryUserMoves(before: seq<User>, after: seq<User>, snapshots: seq<Collection.Snapshot>, o: Observation, interval: int, offset: int)
    requires |after| == |before| && forall i :: 0 <= i < |before| ==> After(before[i], after[i], snapshots, o, interval, offset)
    ensures AllMove(before, after, snapshots, o, interval)
  {
    hide After, RoundMoves;
    forall i | 0 <= i < |before| ensures RoundMoves(before[i], after[i], snapshots, o, interval) {
      AfterMoves(before[i], after[i], snapshots, o, interval, offset);
    }
  }

  lemma EveryUserAfter(before: seq<User>, after: seq<User>, targets: seq<nat>, updates: seq<(nat, Update)>,
                       snapshots: seq<Collection.Snapshot>, o: Observation, interval: int, offset: int)
    requires OncePerUser(updates, |before|) && Built(before, targets, updates, snapshots, o, interval)
    requires forall j: nat :: j < |before| && IsTarget(before[j]) ==> j in targets
    requires CommitAll(before, updates, o.at, offset) == Some(after)
    ensures |after| == |before| && forall i :: 0 <= i < |before| ==> After(before[i], after[i], snapshots, o, interval, offset)
  {
    BatchIsPointwise(before, updates, o.at, offset);
    hide CommitTraffic, BuildUpdate, CommitAll;
    forall i: nat | i < |before| ensures After(before[i], after[i], snapshots, o, interval, offset) {
      if UpdateFor(before[i], snapshots, o, interval).Some? {
        var k :| 0 <= k < |updates| && updates[k].0 == i;
      } else {
        assert forall k :: 0 <= k < |updates| ==> updates[k].0 != i;
      }
    }
  }
}
