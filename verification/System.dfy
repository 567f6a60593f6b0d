/** Every interleaving of administrators, workers, reconciler, collector and scheduler over one user's rows. What a
    service, a worker or the collector read earlier may be as old as it likes when it is used. */
module System {
  import opened Domain
  import opened Calendar
  import opened Intent
  import opened Ledger
  import opened Metering
  import opened Quota

  /** A worker's load of operation `op`, read after the operation was there. */
  datatype Load = Load(op: nat, snapshot: Snapshot)

  /** `marks` are not stored: they say which readings of the node the cursor has seen. */
  datatype World = World(account: Account, looks: seq<Snapshot>, loads: seq<Load>, target: Option<Target>, marks: Marks)

  datatype Action =
    // administrators
    | Glance
    | Edit(expected: int, policy: Policy, adminEnabled: bool, now: int)
    | Rotation(look: nat, key: int, now: int)
    | Port(look: nat, oldPort: int, newPort: int, free: bool, now: int)
    | Deletion(look: nat, now: int)
    | Reset(cycle: nat, now: int)
    // reconciler
    | Drifted(look: nat, now: int)
    | Observed(present: bool)
    | InboundObserved(present: bool)
    // workers
    | Take(op: nat, owner: nat, now: int, duration: int)
    | LoadWork(op: nat)
    | Fence(op: nat, owner: nat, now: int, duration: int)
    | Confirmed(load: nat, owner: nat)
    | Broke(op: nat, owner: nat, verdict: Verdict)
    // scheduler and collector
    | Boundary(now: int, offset: int)
    | ReadTarget
    | Collected(reading: nat, offset: int)

  function Become(w: World, intent: Option<Allocation>): World {
    match intent
    case None => w
    case Some(a) => w.(account := w.account.(intent := a))
  }

  function BecomeAccount(w: World, account: Option<Account>): World {
    match account
    case None => w
    case Some(a) => w.(account := a)
  }

  predicate ActsOnLook(action: Action) {
    action.Rotation? || action.Port? || action.Deletion? || action.Drifted?
  }

  /** The transactions whose revision, presence and version come from an earlier look. */
  function Command(a: Allocation, s: Snapshot, action: Action): Option<Allocation>
    requires ActsOnLook(action)
  {
    match action
    case Rotation(_, key, now) => RotateCredential(a, s, key, now)
    case Port(_, oldPort, newPort, free, now) => ChangePort(a, s, oldPort, newPort, free, now)
    case Deletion(_, now) => SoftDelete(a, s, now)
    case Drifted(_, now) => EnqueueReconcile(a, s, now)
  }

  predicate IsWorker(action: Action) {
    action.Take? || action.Fence? || action.Confirmed? || action.Broke? || action.Observed? || action.InboundObserved?
  }

  /** What the workers and the observing reconciler write. */
  function Attempt(a: Allocation, loads: seq<Load>, action: Action): Option<Allocation>
    requires IsWorker(action)
  {
    match action
    case Observed(present) => Some(RecordObservation(a, present))
    case InboundObserved(present) => Some(ConfirmInboundPresence(a, present))
    case Take(i, owner, now, duration) => if IsOp(a, i) then LeaseOp(a, i, owner, now, duration) else None
    case Fence(i, owner, now, duration) => if IsOp(a, i) then Renew(a, i, owner, now, duration) else None
    case Broke(i, owner, verdict) => if IsOp(a, i) then Some(FinishLeased(a, i, owner, verdict)) else None
    case Confirmed(k, owner) =>
      if k < |loads| && IsOp(a, loads[k].op) then
        var present := a.ops[loads[k].op].presence;
        Some(Confirm(a, loads[k].op, owner, if present then loads[k].snapshot.version else 0, present).0)
      else None
  }

  predicate IsQuota(action: Action) { action.Edit? || action.Reset? || action.Boundary? }

  function Transact(a: Account, action: Action): Option<Account>
    requires IsQuota(action) && |a.book.cycles| > 0
  {
    match action
    case Edit(expected, policy, adminEnabled, now) => UpdateUser(a, expected, policy, adminEnabled, now)
    case Reset(cycle, now) => ResetTraffic(a, cycle, now)
    case Boundary(now, offset) => Rollover(a, now, offset)
  }

  /** One transaction, or one read. An action that does not apply changes nothing. */
  function Next(h: seq<Reading>, interval: int, w: World, action: Action): World
    requires |w.account.book.cycles| > 0
  {
    var a := w.account.intent;
    if ActsOnLook(action) then
      if action.look < |w.looks| then Become(w, Command(a, w.looks[action.look], action)) else w
    else if IsWorker(action) then Become(w, Attempt(a, w.loads, action))
    else if IsQuota(action) then BecomeAccount(w, Transact(w.account, action))
    else match action
      case Glance => w.(looks := w.looks + [Look(a)])
      case LoadWork(i) => if IsOp(a, i) then w.(loads := w.loads + [Load(i, Look(a))]) else w
      case ReadTarget => w.(target := Some(TargetOf(w.account)))
      case Collected(n, offset) => Collect(h, interval, w, n, offset)
  }

  /** The round ends, whether its sample was late, its commit failed or its update was written. */
  function Collect(h: seq<Reading>, interval: int, w: World, n: nat, offset: int): World
    requires |w.account.book.cycles| > 0
  {
    if w.target.None? || n >= |h| then w
    else
      var done := w.(target := None);
      match BuildUpdate(w.target.value, Shown(h[n], Uplink), Shown(h[n], Downlink), Seen(h[n]), interval)
      case None => done
      case Some(u) =>
        match CommitTraffic(w.account, u, h[n].at, offset)
        case None => done
        case Some(a) => done.(account := a, marks := MoveMarks(h, w.marks, n))
  }

  // ---- what holds throughout ----

  /** Counters are unsigned; nothing else is asked of a node for the books to balance. */
  predicate Unsigned(h: seq<Reading>) {
    forall i :: 0 <= i < |h| ==> h[i].up >= 0 && h[i].down >= 0
  }

  ghost predicate ViewsOk(a: Allocation, looks: seq<Snapshot>, loads: seq<Load>) {
    && (forall k :: 0 <= k < |looks| ==> SnapshotOk(a, looks[k]))
    && (forall k :: 0 <= k < |loads| ==>
          loads[k].op < |a.ops| && SnapshotOk(a, loads[k].snapshot) && loads[k].snapshot.revision >= a.ops[loads[k].op].revision)
  }

  ghost predicate TargetOk(a: Account, target: Option<Target>) {
    target.Some? ==>
      && target.value.cursor == a.cursor && target.value.total == a.book.total
      && 0 <= target.value.accounted.up <= a.book.total.up && 0 <= target.value.accounted.down <= a.book.total.down
  }

  ghost predicate WorldOk(w: World) {
    && AccountOk(w.account)
    && ViewsOk(w.account.intent, w.looks, w.loads)
    && TargetOk(w.account, w.target)
  }

  lemma ViewsAge(a: Allocation, b: Allocation, looks: seq<Snapshot>, loads: seq<Load>)
    requires ViewsOk(a, looks, loads) && Evolves(a, b)
    ensures ViewsOk(b, looks, loads)
  {
    forall k | 0 <= k < |looks| ensures SnapshotOk(b, looks[k]) { SnapshotsAge(a, b, looks[k]); }
    forall k | 0 <= k < |loads|
      ensures SnapshotOk(b, loads[k].snapshot) && loads[k].op < |b.ops| && b.ops[loads[k].op].revision == a.ops[loads[k].op].revision
    {
      SnapshotsAge(a, b, loads[k].snapshot);
      assert SameRequest(a.ops[loads[k].op], b.ops[loads[k].op]);
    }
  }

  /** A transaction on the intent that leaves the facts of the quota alone. */
  lemma BecomeKeeps(w: World, b: Allocation)
    requires WorldOk(w) && Keeps(w.account.intent, b)
    ensures WorldOk(Become(w, Some(b)))
  {
    hide Inv, BookOk, Evolves, OverQuota, ViewsOk;
    ViewsAge(w.account.intent, b, w.looks, w.loads);
  }

  /** A transaction on the account that moves neither the lifetime total nor the cursor. */
  lemma BecomeAccountKeeps(w: World, b: Account)
    requires WorldOk(w) && AccountOk(b) && Evolves(w.account.intent, b.intent)
    requires b.cursor == w.account.cursor && b.book.total == w.account.book.total
    ensures WorldOk(BecomeAccount(w, Some(b)))
  {
    hide AccountOk, Evolves, ViewsOk;
    ViewsAge(w.account.intent, b.intent, w.looks, w.loads);
  }

  lemma AdministratorKeeps(h: seq<Reading>, interval: int, w: World, action: Action)
    requires WorldOk(w) && |w.account.book.cycles| > 0
    requires ActsOnLook(action)
    ensures var w' := Next(h, interval, w, action); WorldOk(w') && Evolves(w.account.intent, w'.account.intent)
  {
    var a := w.account.intent;
    SameEvolves(a);
    hide Inv, BookOk, Evolves, OverQuota, ViewsOk, WorldOk, SnapshotOk, RotateCredential, ChangePort, SoftDelete, EnqueueReconcile;
    if action.look < |w.looks| {
      var s := w.looks[action.look];
      assert SnapshotOk(a, s) && Inv(a) by { LookIsOk(w, action.look); }
      match action {
        case Rotation(_, key, now) => RotateKeeps(a, s, key, now);
        case Port(_, oldPort, newPort, free, now) => ChangePortKeeps(a, s, oldPort, newPort, free, now);
        case Deletion(_, now) => SoftDeleteKeeps(a, s, now);
        case Drifted(_, now) => ReconcileKeeps(a, s, now);
      }
      var intent := Command(a, s, action);
      if intent.Some? { BecomeKeeps(w, intent.value); }
    }
  }

  lemma IntentIsOk(w: World)
    requires WorldOk(w)
    ensures Inv(w.account.intent)
  {
  }

  lemma LookIsOk(w: World, k: nat)
    requires WorldOk(w) && k < |w.looks|
    ensures Inv(w.account.intent) && SnapshotOk(w.account.intent, w.looks[k])
  {
  }

  lemma LoadIsOk(w: World, k: nat)
    requires WorldOk(w) && k < |w.loads|
    ensures var load, a := w.loads[k], w.account.intent;
            IsOp(a, load.op) && SnapshotOk(a, load.snapshot) && load.snapshot.revision >= a.ops[load.op].revision
  {
  }

  lemma AttemptKeeps(w: World, action: Action)
    requires WorldOk(w) && IsWorker(action)
    ensures var r := Attempt(w.account.intent, w.loads, action); r.Some? ==> Keeps(w.account.intent, r.value)
  {
    hide Inv, BookOk, Evolves, OverQuota, ViewsOk, WorldOk, SnapshotOk, RecordObservation, ConfirmInboundPresence, LeaseOp, Renew, Confirm, FinishLeased, Due, Holds;
    var a := w.account.intent;
    IntentIsOk(w);
    SameEvolves(a);
    match action {
      case Observed(present) => ObserveKeeps(a, present);
      case InboundObserved(present) => ObserveKeeps(a, present);
      case Take(i, owner, now, duration) => if IsOp(a, i) { LeaseKeeps(a, i, owner, now, duration); }
      case Fence(i, owner, now, duration) => if IsOp(a, i) { RenewKeeps(a, i, owner, now, duration); }
      case Broke(i, owner, verdict) => if IsOp(a, i) { FinishLeasedKeeps(a, i, owner, verdict); }
      case Confirmed(k, owner) => if k < |w.loads| { LoadIsOk(w, k); ConfirmKeeps(a, w.loads[k].op, owner, w.loads[k].snapshot); }
    }
  }

  lemma WorkerKeeps(h: seq<Reading>, interval: int, w: World, action: Action)
    requires WorldOk(w) && |w.account.book.cycles| > 0 && IsWorker(action)
    ensures var w' := Next(h, interval, w, action); WorldOk(w') && Evolves(w.account.intent, w'.account.intent)
  {
    var a := w.account.intent;
    SameEvolves(a);
    hide Inv, WorldOk, Evolves, Attempt;
    AttemptKeeps(w, action);
    var r := Attempt(a, w.loads, action);
    if r.Some? { BecomeKeeps(w, r.value); }
  }

  lemma TransactKeeps(a: Account, action: Action)
    requires AccountOk(a) && IsQuota(action) && |a.book.cycles| > 0
    ensures var r := Transact(a, action);
            r.Some? ==> AccountOk(r.value) && Evolves(a.intent, r.value.intent) && r.value.cursor == a.cursor && r.value.book.total == a.book.total
  {
    hide AccountOk, Evolves, UpdateUser, ResetTraffic, Rollover, Decide, Settle, OpsOk;
    match action {
      case Edit(expected, policy, adminEnabled, now) => UpdateKeeps(a, expected, policy, adminEnabled, now);
      case Reset(cycle, now) => ResetKeeps(a, cycle, now);
      case Boundary(now, offset) => RolloverKeeps(a, now, offset);
    }
  }

  lemma QuotaKeeps(h: seq<Reading>, interval: int, w: World, action: Action)
    requires WorldOk(w) && |w.account.book.cycles| > 0 && IsQuota(action)
    ensures var w' := Next(h, interval, w, action); WorldOk(w') && Evolves(w.account.intent, w'.account.intent)
  {
    var a := w.account;
    assert AccountOk(a);
    SameEvolves(a.intent);
    hide AccountOk, Evolves, WorldOk, Transact;
    TransactKeeps(a, action);
    var r := Transact(a, action);
    if r.Some? { BecomeAccountKeeps(w, r.value); }
  }

  lemma ViewsKeep(h: seq<Reading>, interval: int, w: World, action: Action)
    requires WorldOk(w) && |w.account.book.cycles| > 0
    requires action.Glance? || action.LoadWork? || action.ReadTarget?
    ensures var w' := Next(h, interval, w, action); WorldOk(w') && w'.account == w.account
  {
    hide CredentialsOk, SyncOk, CyclesOk, EventsOk, SumGross, SumDays, DaysOk, OverQuota;
    EverythingFits(w.account.book);
  }

  /** A snapshot is still true when its round is committed: only the collector moves what it holds. */
  lemma CollectReady(w: World)
    requires WorldOk(w) && w.target.Some?
    ensures var t, total := w.target.value, w.account.book.total;
            t.total == total && total.Fits() && t.cursor == w.account.cursor
  {
  }

  lemma CollectKeeps(h: seq<Reading>, interval: int, w: World, n: nat, offset: int)
    requires WorldOk(w) && |w.account.book.cycles| > 0 && Unsigned(h)
    ensures var w' := Collect(h, interval, w, n, offset); WorldOk(w') && Evolves(w.account.intent, w'.account.intent)
  {
    hide AccountOk, Evolves, BuildUpdate, CommitTraffic, ViewsOk, MoveMarks;
    SameEvolves(w.account.intent);
    if w.target.Some? && n < |h| {
      var t, a := w.target.value, w.account;
      CollectReady(w);
      var u := BuildUpdate(t, Shown(h[n], Uplink), Shown(h[n], Downlink), Seen(h[n]), interval);
      UpdateIsSound(t, Shown(h[n], Uplink), Shown(h[n], Downlink), Seen(h[n]), interval);
      if u.Some? {
        CommitKeeps(a, u.value, h[n].at, offset);
        ViewsAge(a.intent, CommitTraffic(a, u.value, h[n].at, offset).value.intent, w.looks, w.loads);
      }
    }
  }

  lemma StepKeeps(h: seq<Reading>, interval: int, w: World, action: Action)
    requires WorldOk(w) && Unsigned(h)
    ensures |w.account.book.cycles| > 0
    ensures var w' := Next(h, interval, w, action); WorldOk(w') && Evolves(w.account.intent, w'.account.intent)
  {
    HasOpenCycle(w.account);
    hide AccountOk, WorldOk, Evolves, Unsigned;
    if ActsOnLook(action) {
      AdministratorKeeps(h, interval, w, action);
    } else if IsWorker(action) {
      WorkerKeeps(h, interval, w, action);
    } else if action.Collected? {
      CollectKeeps(h, interval, w, action.reading, action.offset);
    } else if IsQuota(action) {
      QuotaKeeps(h, interval, w, action);
    } else {
      ViewsKeep(h, interval, w, action);
      SameEvolves(w.account.intent);
    }
  }

  // ---- runs ----

  /** Whatever happens in whatever order, every step keeps the invariant, and the intent only evolves. */
  ghost function Run(h: seq<Reading>, interval: int, w: World, actions: seq<Action>): (r: World)
    requires Unsigned(h) && WorldOk(w)
    ensures WorldOk(r) && Evolves(w.account.intent, r.account.intent)
    decreases |actions|
  {
    hide WorldOk, Evolves, Next, Unsigned;
    SameEvolves(w.account.intent);
    if actions == [] then w
    else
      StepKeeps(h, interval, w, actions[0]);
      var next := Next(h, interval, w, actions[0]);
      var r := Run(h, interval, next, actions[1..]);
      EvolvesTransitively(w.account.intent, next.account.intent, r.account.intent);
      r
  }

  /** A user created at `now`: the first cycle is the one around that moment. */
  function Initial(policy: Policy, port: int, key: int, now: int, offset: int): Option<World> {
    if !PolicyOk(policy) then None
    else match InitialCycleBounds(now, offset, policy.resetDay)
      case None => None
      case Some(bounds) =>
        Some(World(CreateAccount(policy, port, key, bounds.0, bounds.1, offset, now), [], [], None, NO_MARKS))
  }

  lemma InitialOk(policy: Policy, port: int, key: int, now: int, offset: int)
    ensures var w := Initial(policy, port, key, now, offset);
            && (w.Some? <==> PolicyOk(policy))
            && (w.Some? ==> WorldOk(w.value))
  {
    hide InitialCycleBounds, AccountOk, CreateAccount;
    if PolicyOk(policy) {
      FirstBounds(policy.resetDay, now, offset);
      var bounds := InitialCycleBounds(now, offset, policy.resetDay).value;
      InitialWorldOk(policy, port, key, bounds.0, bounds.1, offset, now);
    }
  }

  /** The world a user is born into. */
  ghost function Newborn(policy: Policy, port: int, key: int, now: int, offset: int): (w: World)
    requires PolicyOk(policy)
    ensures WorldOk(w) && Some(w) == Initial(policy, port, key, now, offset)
  {
    hide WorldOk;
    InitialOk(policy, port, key, now, offset);
    Initial(policy, port, key, now, offset).value
  }

  lemma FirstBounds(resetDay: int, now: int, offset: int)
    requires IsResetDay(resetDay)
    ensures var bounds := InitialCycleBounds(now, offset, resetDay); bounds.Some? && bounds.value.0 <= now < bounds.value.1
  {
    hide InitialCycleBounds, CycleBounds;
    FirstCycleAgrees(now, offset, resetDay);
    CyclesPartitionTime(now, now, offset, resetDay);
  }

  lemma InitialWorldOk(policy: Policy, port: int, key: int, start: int, end: int, offset: int, now: int)
    requires PolicyOk(policy) && start < end
    ensures WorldOk(World(CreateAccount(policy, port, key, start, end, offset, now), [], [], None, NO_MARKS))
  {
    hide AccountOk, PolicyOk;
    CreateKeeps(policy, port, key, start, end, offset, now);
  }

  /** In every reachable state the books balance, every stored byte count fits an int64, and the quota state is the
      true comparison, whatever the node's counters, epochs and times were. */
  lemma EveryRunBalances(h: seq<Reading>, interval: int, policy: Policy, port: int, key: int, now: int, offset: int, actions: seq<Action>)
    requires Unsigned(h) && PolicyOk(policy)
    ensures var a := Run(h, interval, Newborn(policy, port, key, now, offset), actions).account;
            && BookOk(a.book)
            && a.book.total == SumGross(a.book.cycles) == SumDays(a.book.days)
            && (forall i :: 0 <= i < |a.book.cycles| ==>
                  a.book.cycles[i].gross == a.book.cycles[i].accounted.Plus(SumEvents(a.book.events, i)))
            && a.book.total.Fits()
            && (forall i :: 0 <= i < |a.book.cycles| ==> a.book.cycles[i].gross.Fits() && a.book.cycles[i].accounted.Fits())
            && (forall i :: 0 <= i < |a.book.days| ==> a.book.days[i].bytes.Fits())
            && (a.intent.quota == Exceeded <==>
                  a.book.policy.limit.Some? &&
                  Open(a.book.cycles).accounted.up + Open(a.book.cycles).accounted.down >= a.book.policy.limit.value)
  {
    hide Run, BookOk, Inv, OverQuota, ViewsOk, Unsigned, SumGross, SumDays, SumEvents;
    var w := Run(h, interval, Newborn(policy, port, key, now, offset), actions);
    BalancedBook(w.account.book);
    QuotaStateIsExact(w.account);
    EverythingFits(w.account.book);
  }

  lemma BalancedBook(b: Book)
    requires BookOk(b)
    ensures |b.cycles| > 0 && b.total == SumGross(b.cycles) == SumDays(b.days)
    ensures forall i :: 0 <= i < |b.cycles| ==> b.cycles[i].gross == b.cycles[i].accounted.Plus(SumEvents(b.events, i))
  {
    hide SumGross, SumDays, SumEvents;
    forall i | 0 <= i < |b.cycles| ensures b.cycles[i].gross == b.cycles[i].accounted.Plus(SumEvents(b.events, i)) {
      assert CycleOk(b.cycles[i], b.events, i);
    }
  }

  // ---- recorded and counted ----

  ghost predicate Metered(h: seq<Reading>, w: World) {
    CursorOk(h, w.account.cursor, w.account.book.total, w.marks)
  }

  /** The action commits no round that confirms a restart over bytes of the same boot. */
  predicate Safe(h: seq<Reading>, interval: int, w: World, action: Action) {
    action.Collected? && action.reading < |h| && w.marks.at <= action.reading ==>
      !Doubles(h, w.marks, action.reading, Uplink, interval) && !Doubles(h, w.marks, action.reading, Downlink, interval)
  }

  /** The action commits no round without an epoch between a restart and the first known epoch after it. */
  predicate Trusts(h: seq<Reading>, w: World, action: Action) {
    action.Collected? && action.reading < |h| && w.marks.at <= action.reading ==> Trusted(h, w.marks, action.reading)
  }

  ghost predicate SafeRun(h: seq<Reading>, interval: int, w: World, actions: seq<Action>)
    requires Unsigned(h) && WorldOk(w)
    decreases |actions|
  {
    if actions == [] then true
    else
      StepKeeps(h, interval, w, actions[0]);
      Safe(h, interval, w, actions[0]) && SafeRun(h, interval, Next(h, interval, w, actions[0]), actions[1..])
  }

  ghost predicate TrustingRun(h: seq<Reading>, interval: int, w: World, actions: seq<Action>)
    requires Unsigned(h) && WorldOk(w)
    decreases |actions|
  {
    if actions == [] then true
    else
      StepKeeps(h, interval, w, actions[0]);
      Trusts(h, w, actions[0]) && TrustingRun(h, interval, Next(h, interval, w, actions[0]), actions[1..])
  }

  /** Nothing but the collector touches the lifetime total, the cursor or what the cursor has seen. */
  lemma OthersLeaveTheMeter(h: seq<Reading>, interval: int, w: World, action: Action)
    requires WorldOk(w) && Unsigned(h) && !action.Collected?
    ensures |w.account.book.cycles| > 0
    ensures var w' := Next(h, interval, w, action);
            w'.marks == w.marks && w'.account.cursor == w.account.cursor && w'.account.book.total == w.account.book.total
  {
    HasOpenCycle(w.account);
    hide AccountOk, Evolves, Transact, Attempt, Command, ViewsOk;
    if IsQuota(action) { TransactKeeps(w.account, action); }
  }

  lemma CollectMeters(h: seq<Reading>, interval: int, w: World, n: nat, offset: int)
    requires WorldOk(w) && |w.account.book.cycles| > 0 && HistoryOk(h) && Metered(h, w)
    requires Safe(h, interval, w, Collected(n, offset))
    ensures Metered(h, Collect(h, interval, w, n, offset))
  {
    hide AccountOk, HistoryOk, BuildUpdate, CommitTraffic, CursorOk, MoveMarks, Doubles, ViewsOk;
    if w.target.Some? && n < |h| {
      var t := w.target.value;
      CollectReady(w);
      RoundNeverOvercounts(h, t, w.marks, n, interval);
      UnsignedHistory(h);
      UpdateIsSound(t, Shown(h[n], Uplink), Shown(h[n], Downlink), Seen(h[n]), interval);
      var u := BuildUpdate(t, Shown(h[n], Uplink), Shown(h[n], Downlink), Seen(h[n]), interval);
      if u.Some? { CommitKeeps(w.account, u.value, h[n].at, offset); }
    }
  }

  lemma UnsignedHistory(h: seq<Reading>)
    requires HistoryOk(h)
    ensures Unsigned(h)
  {
  }

  /** In every state of a safe run the recorded lifetime bytes are within what the node counted. */
  lemma {:induction false} SafeRunsStayMetered(h: seq<Reading>, interval: int, w: World, actions: seq<Action>)
    requires HistoryOk(h) && Unsigned(h) && WorldOk(w) && Metered(h, w) && SafeRun(h, interval, w, actions)
    ensures Metered(h, Run(h, interval, w, actions))
    decreases |actions|
  {
    if actions != [] {
      hide HistoryOk, Unsigned, WorldOk, Metered, Safe, Next, Evolves;
      StepKeeps(h, interval, w, actions[0]);
      MeterStep(h, interval, w, actions[0]);
      SafeRunsStayMetered(h, interval, Next(h, interval, w, actions[0]), actions[1..]);
    }
  }

  lemma MeterStep(h: seq<Reading>, interval: int, w: World, action: Action)
    requires HistoryOk(h) && Unsigned(h) && WorldOk(w) && Metered(h, w) && Safe(h, interval, w, action)
    ensures |w.account.book.cycles| > 0 && Metered(h, Next(h, interval, w, action))
  {
    hide HistoryOk, Unsigned, WorldOk, Metered, Safe, Collect, Evolves;
    StepKeeps(h, interval, w, action);
    if action.Collected? {
      CollectMeters(h, interval, w, action.reading, action.offset);
    } else {
      StaysMetered(h, interval, w, action);
    }
  }

  lemma StaysMetered(h: seq<Reading>, interval: int, w: World, action: Action)
    requires WorldOk(w) && Unsigned(h) && !action.Collected? && Metered(h, w) && |w.account.book.cycles| > 0
    ensures Metered(h, Next(h, interval, w, action))
  {
    hide WorldOk, Next, CursorOk;
    OthersLeaveTheMeter(h, interval, w, action);
  }

  /** A run that trusts no unknown epoch too early is safe, at any interval of at least a second. */
  lemma {:induction false} TrustingRunsAreSafe(h: seq<Reading>, interval: int, w: World, actions: seq<Action>)
    requires HistoryOk(h) && Unsigned(h) && interval >= 1000 && WorldOk(w) && Metered(h, w) && MarksOk(h, w.marks)
    requires TrustingRun(h, interval, w, actions)
    ensures SafeRun(h, interval, w, actions)
    decreases |actions|
  {
    if actions != [] {
      hide HistoryOk, Unsigned, WorldOk, Next, MarksOk, Metered, Safe, Trusts, Evolves;
      StepKeeps(h, interval, w, actions[0]);
      TrustedStep(h, interval, w, actions[0]);
      MeterStep(h, interval, w, actions[0]);
      TrustingRunsAreSafe(h, interval, Next(h, interval, w, actions[0]), actions[1..]);
    }
  }

  lemma TrustedStep(h: seq<Reading>, interval: int, w: World, action: Action)
    requires HistoryOk(h) && Unsigned(h) && interval >= 1000 && WorldOk(w) && Metered(h, w) && MarksOk(h, w.marks) && Trusts(h, w, action)
    ensures |w.account.book.cycles| > 0 && Safe(h, interval, w, action) && MarksOk(h, Next(h, interval, w, action).marks)
  {
    hide WorldOk, MarksOk, HistoryOk, Unsigned, Reconfirms, BuildUpdate, CommitTraffic, MoveMarks, Trusted, CursorOk, Evolves;
    StepKeeps(h, interval, w, action);
    if !action.Collected? {
      OthersLeaveTheMeter(h, interval, w, action);
    } else if action.reading < |h| && w.target.Some? {
      if w.marks.at <= action.reading {
        TrustedNeverReconfirms(h, w.marks, action.reading, Uplink, interval);
        TrustedNeverReconfirms(h, w.marks, action.reading, Downlink, interval);
        TrustedKeepsMarks(h, w.marks, action.reading);
      }
      CollectReady(w);
      RoundNeverOvercounts(h, w.target.value, w.marks, action.reading, interval);
    } else if action.reading < |h| && w.marks.at <= action.reading {
      TrustedNeverReconfirms(h, w.marks, action.reading, Uplink, interval);
      TrustedNeverReconfirms(h, w.marks, action.reading, Downlink, interval);
    }
  }

  /** From a user's creation on, whatever interleaves: if every committed round without an epoch belongs to the boot
      last confirmed, and the interval is at least a second, no byte is recorded that the node did not count. The exact
      condition is that of `Safe`, step by step, and of `RunOvercountsExactlyWhen` over a run. */
  lemma EveryRunStaysWithinTheNode(h: seq<Reading>, interval: int, policy: Policy, port: int, key: int, now: int, offset: int, actions: seq<Action>)
    requires HistoryOk(h) && Unsigned(h) && PolicyOk(policy)
    requires var w := Newborn(policy, port, key, now, offset);
             SafeRun(h, interval, w, actions) || (interval >= 1000 && TrustingRun(h, interval, w, actions))
    ensures var total := Run(h, interval, Newborn(policy, port, key, now, offset), actions).account.book.total;
            total.up <= NodeTotal(h, Uplink, |h| - 1) && total.down <= NodeTotal(h, Downlink, |h| - 1)
  {
    hide HistoryOk, Unsigned, WorldOk, SafeRun, TrustingRun, Run, Initial, Metered, MarksOk;
    var w := Newborn(policy, port, key, now, offset);
    InitialMeter(h, policy, port, key, now, offset);
    if !SafeRun(h, interval, w, actions) { TrustingRunsAreSafe(h, interval, w, actions); }
    SafeRunsStayMetered(h, interval, w, actions);
    MeteredMeansWithin(h, Run(h, interval, w, actions));
  }

  lemma InitialMeter(h: seq<Reading>, policy: Policy, port: int, key: int, now: int, offset: int)
    requires Initial(policy, port, key, now, offset).Some?
    ensures var w := Initial(policy, port, key, now, offset).value; Metered(h, w) && MarksOk(h, w.marks)
  {
    hide InitialCycleBounds;
  }

  lemma MeteredMeansWithin(h: seq<Reading>, w: World)
    requires HistoryOk(h) && Metered(h, w)
    ensures w.account.book.total.up <= NodeTotal(h, Uplink, |h| - 1) && w.account.book.total.down <= NodeTotal(h, Downlink, |h| - 1)
  {
    NodeTotalFrom(h, Uplink, w.marks.up);
    NodeTotalFrom(h, Downlink, w.marks.down);
  }

  /** Exactly one operation sits at the desired revision, every older one is closed, and that operation and the
      unreleased inbound both ask for what the facts ask for. */
  ghost predicate IntentAgrees(a: Allocation) {
    && (exists i :: 0 <= i < |a.ops| && a.ops[i].revision == a.desiredRevision && a.ops[i].presence == a.Desired())
    && (forall i, j :: 0 <= i < |a.ops| && 0 <= j < |a.ops| && a.ops[i].revision == a.ops[j].revision ==> i == j)
    && (forall i :: 0 <= i < |a.ops| ==>
          && a.ops[i].revision <= a.desiredRevision
          && (a.ops[i].revision < a.desiredRevision ==> IsClosed(a.ops[i].state)))
    && (!a.inbound.released ==> a.inbound.desired == a.Desired())
  }

  /** So it is in every reachable state; and a user is out of sync exactly when an operation is still to be carried
      out, so the reconciler's second look for open operations never finds any. */
  lemma EveryRunAgreesOnIntent(h: seq<Reading>, interval: int, w: World, actions: seq<Action>)
    requires Unsigned(h) && WorldOk(w)
    ensures var a := Run(h, interval, w, actions).account.intent;
            && IntentAgrees(a)
            && 0 <= a.syncedRevision <= a.desiredRevision
            && (a.PendingSync() <==> a.syncedRevision < a.desiredRevision)
            && (!a.PendingSync() ==> !a.HasOpenOperation() && !a.HasOpenRotation())
  {
    hide Run, BookOk, ViewsOk, OverQuota, Unsigned, Inv, IntentAgrees;
    IntentFacts(Run(h, interval, w, actions).account.intent);
  }

  lemma IntentFacts(a: Allocation)
    requires Inv(a)
    ensures IntentAgrees(a) && 0 <= a.syncedRevision <= a.desiredRevision
    ensures a.PendingSync() <==> a.syncedRevision < a.desiredRevision
    ensures !a.PendingSync() ==> !a.HasOpenOperation() && !a.HasOpenRotation()
  {
    assert a.ops[|a.ops| - 1].revision == a.desiredRevision;
  }

  /** Between any two moments of a run: an unchanged desired revision means unchanged presence and credential version,
      synced and desired revisions never go back, and an operation closed once, succeeded or superseded, stays so. */
  lemma RevisionsFixIntent(h: seq<Reading>, interval: int, w: World, earlier: seq<Action>, later: seq<Action>)
    requires Unsigned(h) && WorldOk(w)
    ensures var a := Run(h, interval, w, earlier);
            var b := Run(h, interval, a, later);
            var x, y := a.account.intent, b.account.intent;
            && (x.desiredRevision == y.desiredRevision ==> x.Desired() == y.Desired() && x.desiredVersion == y.desiredVersion)
            && x.desiredRevision <= y.desiredRevision && x.syncedRevision <= y.syncedRevision && |x.ops| <= |y.ops|
            && (forall i :: 0 <= i < |x.ops| && IsClosed(x.ops[i].state) ==> y.ops[i].state == x.ops[i].state)
            && (forall i :: 0 <= i < |x.ops| ==> SameRequest(x.ops[i], y.ops[i]))
  {
    hide WorldOk;
  }

  predicate Succeeds(w: World, w': World, i: nat) {
    var x, y := w.account.intent.ops, w'.account.intent.ops;
    i < |x| && i < |y| && x[i].state != Succeeded && y[i].state == Succeeded
  }

  /** No operation succeeds twice in a run, and only the one at the desired revision can succeed at all. */
  lemma SucceedsAtMostOnce(h: seq<Reading>, interval: int, w: World, first: Action, between: seq<Action>, second: Action, i: nat)
    requires Unsigned(h) && WorldOk(w) && |w.account.book.cycles| > 0
    ensures var x := Next(h, interval, w, first);
            && WorldOk(x)
            && var y := Run(h, interval, x, between);
               && |y.account.book.cycles| > 0
               && (Succeeds(w, x, i) ==>
                     && w.account.intent.ops[i].revision == w.account.intent.desiredRevision
                     && !Succeeds(y, Next(h, interval, y, second), i))
  {
    StepKeeps(h, interval, w, first);
    var x := Next(h, interval, w, first);
    var y := Run(h, interval, x, between);
    StepKeeps(h, interval, y, second);
    if Succeeds(w, x, i) { OnlyTheOpenOneChanges(w.account.intent, x.account.intent, i); }
  }

  lemma OnlyTheOpenOneChanges(a: Allocation, b: Allocation, i: nat)
    requires Inv(a) && Evolves(a, b) && i < |a.ops| && i < |b.ops| && a.ops[i].state != Succeeded && b.ops[i].state == Succeeded
    ensures a.ops[i].revision == a.desiredRevision
  {
  }
}
