/** One user's rows and its inbound on the node together, over whole runs of one process: what is recorded as
    synchronized is so. */
module Joint {
  import opened Domain
  import opened Xray
  import opened Synchronizer
  import opened Intent
  import opened Quota
  import opened Ledger
  import opened Metering
  import System
  import Projection
  import Worker

  /** The worker's attempt on this user's record. `look` and `start` are the rows and the node as they were when the
      work was loaded. */
  datatype Attempt =
    | Idle
    | Granted(op: nat, owner: nat)
    | Running(op: nat, owner: nat, look: Snapshot, work: Work, start: Node, pc: Pc)

  datatype Panel = Panel(rows: System.World, node: Node, attempt: Attempt)

  /** The inbound of this user. */
  datatype Address = Address(tag: string, identity: string)

  datatype Event =
    // administrators, reconciler, collector and scheduler
    | Elsewhere(action: System.Action)
    // the worker
    | Begin(op: nat, owner: nat, now: int, duration: int)
    | Load
    | Act(choice: Choice, now: int, duration: int)
    | Conclude(options: Worker.Options, now: int)
    | Die
    // the node, by work on other inbounds or on the clients of this one
    | Around(node: Node)

  predicate IsElsewhere(action: System.Action) {
    !action.Take? && !action.Fence? && !action.Confirmed? && !action.Broke?
  }

  function Allocated(p: Panel): Allocation { p.rows.account.intent }

  function WithRows(p: Panel, a: Allocation): Panel {
    p.(rows := p.rows.(account := p.rows.account.(intent := a)))
  }

  /** Between attempts the inbound neither comes nor goes, except that one without a user may be cleared away. */
  predicate LeavesInbound(a: Allocation, tag: string, n: Node, n': Node) {
    (tag in n'.inbounds ==> tag in n.inbounds) && (tag in n.inbounds && !a.inbound.released ==> tag in n'.inbounds)
  }

  predicate Enabled(p: Panel, at: Address, e: Event) {
    match e
    case Elsewhere(action) => IsElsewhere(action)
    case Act(c, _, _) => Honest(c)
    case Around(n') => p.attempt.Idle? && LeavesInbound(Allocated(p), at.tag, p.node, n')
    case _ => true
  }

  /** One step of the running attempt; a fence renews the lease in the rows. */
  function Stepped(p: Panel, c: Choice, now: int, duration: int): Panel
    requires p.attempt.Running? && Fits(p.attempt.work, p.attempt.pc) && !p.attempt.pc.End?
    requires IsOp(Allocated(p), p.attempt.op)
  {
    var t, a := p.attempt, Allocated(p);
    var renewed := if Emit(t.work, t.pc).Fence? then Renew(a, t.op, t.owner, now, duration) else None;
    var choice := if Emit(t.work, t.pc).Fence? then c.(held := renewed.Some?) else c;
    var (pc', n') := Step(t.work, t.pc, p.node, choice);
    var q := p.(node := n', attempt := t.(pc := pc'));
    if renewed.Some? then WithRows(q, renewed.value) else q
  }

  /** An event that does not apply changes nothing. */
  function Next(h: seq<Reading>, interval: int, p: Panel, at: Address, e: Event): Panel
    requires |p.rows.account.book.cycles| > 0
  {
    var a, t := Allocated(p), p.attempt;
    match e
    case Elsewhere(action) => p.(rows := System.Next(h, interval, p.rows, action))
    case Begin(k, owner, now, duration) =>
      if t.Idle? && IsOp(a, k) && LeaseOp(a, k, owner, now, duration).Some?
      then WithRows(p, LeaseOp(a, k, owner, now, duration).value).(attempt := Granted(k, owner))
      else p
    case Load =>
      if t.Granted? && IsOp(a, t.op) then
        var w := Sync(at.tag, at.identity, a.inbound.port, a.ops[t.op].presence, a.ops[t.op].reason, a.desiredVersion);
        p.(attempt := Running(t.op, t.owner, Look(a), w, p.node, Start(w)))
      else p
    case Act(c, now, duration) =>
      if t.Running? && Fits(t.work, t.pc) && !t.pc.End? && IsOp(a, t.op) then Stepped(p, c, now, duration) else p
    case Conclude(options, now) =>
      if t.Running? && t.pc.End? && options.owner == t.owner && IsOp(a, t.op)
      then WithRows(p, Worker.AfterOutcome(a, t.op, t.pc.outcome, options, now)).(attempt := Idle)
      else p
    case Die => p.(attempt := Idle)
    case Around(n') => p.(node := n')
  }

  // ---- what holds throughout ----

  /** What is recorded as synchronized is so. */
  predicate Settled(a: Allocation, tag: string, n: Node) {
    !a.PendingSync() ==> (tag in n.inbounds <==> a.Desired())
  }

  ghost predicate AttemptOk(a: Allocation, at: Address, t: Attempt, n: Node)
    requires t.Running?
  {
    && IsOp(a, t.op) && SnapshotOk(a, t.look) && t.look.revision >= a.ops[t.op].revision
    && t.work.Sync? && t.work.tag == at.tag && t.work.expected == at.identity
    && t.work.presence == a.ops[t.op].presence && t.work.version == t.look.version
    && Fits(t.work, t.pc) && Suits(t.work, t.pc) && Projection.At(t.work, t.start, t.pc, n)
  }

  ghost predicate Consistent(a: Allocation, at: Address, t: Attempt, n: Node) {
    match t
    case Idle => Settled(a, at.tag, n)
    case Granted(k, _) => a.PendingSync() && IsOp(a, k)
    case Running(_, _, _, _, _, _) => a.PendingSync() && AttemptOk(a, at, t, n)
  }

  ghost predicate PanelOk(p: Panel, at: Address) {
    System.WorldOk(p.rows) && Consistent(Allocated(p), at, p.attempt, p.node)
  }

  predicate AddressOk(at: Address) { IsPanelNamespace(at.tag) && at.identity != "" }

  // ---- only a confirmation synchronizes ----

  lemma DecideLeavesSync(a: Allocation, adminEnabled: bool, exceeded: bool, now: int)
    ensures var r := Decide(a, adminEnabled, exceeded, now); r.Some? ==> r.value.syncedRevision == a.syncedRevision
  {
  }

  lemma EditLeavesSync(a: Allocation, expected: int, adminEnabled: bool, exceeded: bool, now: int)
    ensures var r := EditUser(a, expected, adminEnabled, exceeded, now); r.Some? ==> r.value.syncedRevision == a.syncedRevision
  {
    hide Decide;
    var b := BumpUser(a, expected);
    if b.Some? { DecideLeavesSync(b.value, adminEnabled, exceeded, now); }
  }

  lemma CommandLeavesSync(a: Allocation, s: Snapshot, action: System.Action)
    requires System.ActsOnLook(action)
    ensures var r := System.Command(a, s, action); r.Some? ==> r.value.syncedRevision == a.syncedRevision
  {
    hide SupersedeOlder, HasPendingKey;
  }

  lemma TransactLeavesSync(a: Account, action: System.Action)
    requires System.IsQuota(action) && |a.book.cycles| > 0
    ensures var r := System.Transact(a, action); r.Some? ==> r.value.intent.syncedRevision == a.intent.syncedRevision
  {
    hide Decide, EditUser, OverQuota;
    match action {
      case Edit(expected, policy, adminEnabled, now) =>
        EditLeavesSync(a.intent, expected, adminEnabled, OverQuota(a.book.(policy := policy)), now);
      case Reset(_, now) => DecideLeavesSync(a.intent, a.intent.adminEnabled, false, now);
      case Boundary(now, _) => DecideLeavesSync(a.intent, a.intent.adminEnabled, false, now);
    }
  }

  lemma CommitLeavesSync(a: Account, u: Update, moment: int, offset: int)
    requires |a.book.cycles| > 0
    ensures var r := CommitTraffic(a, u, moment, offset); r.Some? ==> r.value.intent.syncedRevision == a.intent.syncedRevision
  {
    hide Decide, OverQuota, AddTraffic;
    DecideLeavesSync(a.intent, a.intent.adminEnabled, false, moment);
    var b := Rollover(a, moment, offset);
    if b.Some? { DecideLeavesSync(b.value.intent, b.value.intent.adminEnabled, true, moment); }
  }

  lemma ElsewhereLeavesSync(h: seq<Reading>, interval: int, w: System.World, action: System.Action)
    requires |w.account.book.cycles| > 0 && IsElsewhere(action)
    ensures System.Next(h, interval, w, action).account.intent.syncedRevision == w.account.intent.syncedRevision
  {
    hide System.Command, System.Transact, CommitTraffic, BuildUpdate, MoveMarks;
    if System.ActsOnLook(action) {
      if action.look < |w.looks| { CommandLeavesSync(w.account.intent, w.looks[action.look], action); }
    } else if System.IsQuota(action) {
      TransactLeavesSync(w.account, action);
    } else if action.Collected? && w.target.Some? && action.reading < |h| {
      var r := h[action.reading];
      var u := BuildUpdate(w.target.value, Shown(r, Uplink), Shown(r, Downlink), Seen(r), interval);
      if u.Some? { CommitLeavesSync(w.account, u.value, r.at, action.offset); }
    }
  }

  /** Rows and intent that move without a confirmation leave what is settled settled, and an attempt under way pending. */
  lemma EvolvesConsistently(a: Allocation, b: Allocation, at: Address, t: Attempt, n: Node)
    requires Inv(a) && Inv(b) && Evolves(a, b) && b.syncedRevision == a.syncedRevision
    requires Consistent(a, at, t, n)
    ensures Consistent(b, at, t, n)
  {
    hide Inv, Evolves, Projection.At, Fits, Suits;
    PendingMeansBehind(a);
    PendingMeansBehind(b);
    Revisions(a, b);
    if t.Running? {
      SnapshotsAge(a, b, t.look);
      Requests(a, b, t.op);
    } else if t.Granted? {
      Requests(a, b, t.op);
    }
  }

  lemma PendingMeansBehind(a: Allocation)
    requires Inv(a)
    ensures a.PendingSync() <==> a.syncedRevision < a.desiredRevision
    ensures a.syncedRevision <= a.desiredRevision
  {
    System.IntentFacts(a);
  }

  lemma Revisions(a: Allocation, b: Allocation)
    requires Evolves(a, b)
    ensures a.desiredRevision <= b.desiredRevision && (a.desiredRevision == b.desiredRevision ==> a.Desired() == b.Desired())
  {
  }

  lemma Requests(a: Allocation, b: Allocation, k: nat)
    requires Evolves(a, b) && IsOp(a, k)
    ensures IsOp(b, k) && SameRequest(a.ops[k], b.ops[k])
  {
  }

  lemma RowsOk(p: Panel, at: Address)
    requires PanelOk(p, at)
    ensures Inv(Allocated(p)) && |p.rows.account.book.cycles| > 0
  {
  }

  // ---- each event ----

  lemma ElsewhereKeeps(h: seq<Reading>, interval: int, p: Panel, at: Address, action: System.Action)
    requires PanelOk(p, at) && System.Unsigned(h) && IsElsewhere(action) && |p.rows.account.book.cycles| > 0
    ensures PanelOk(p.(rows := System.Next(h, interval, p.rows, action)), at)
  {
    hide Inv, Evolves, Consistent, System.WorldOk, System.Next;
    var rows := System.Next(h, interval, p.rows, action);
    System.StepKeeps(h, interval, p.rows, action);
    ElsewhereLeavesSync(h, interval, p.rows, action);
    WorldInv(p.rows);
    WorldInv(rows);
    EvolvesConsistently(Allocated(p), rows.account.intent, at, p.attempt, p.node);
  }

  lemma WorldInv(w: System.World)
    requires System.WorldOk(w)
    ensures Inv(w.account.intent)
  {
  }

  /** A transaction of the worker, on the intent alone. */
  lemma RowsKeep(p: Panel, a: Allocation)
    requires System.WorldOk(p.rows) && Keeps(Allocated(p), a)
    ensures System.WorldOk(WithRows(p, a).rows)
  {
    hide System.WorldOk, Inv, Evolves;
    System.BecomeKeeps(p.rows, a);
  }

  /** An operation is leased only while the user is out of step. */
  lemma BeginKeeps(p: Panel, at: Address, k: nat, owner: nat, now: int, duration: int)
    requires PanelOk(p, at) && p.attempt.Idle? && IsOp(Allocated(p), k) && LeaseOp(Allocated(p), k, owner, now, duration).Some?
    ensures PanelOk(WithRows(p, LeaseOp(Allocated(p), k, owner, now, duration).value).(attempt := Granted(k, owner)), at)
  {
    hide Inv, Evolves, System.WorldOk, LeaseOp, Settled;
    var a := Allocated(p);
    WorldInv(p.rows);
    LeaseKeeps(a, k, owner, now, duration);
    var b := LeaseOp(a, k, owner, now, duration).value;
    RowsKeep(p, b);
    Requests(a, b, k);
    HeldIsPending(b, k, owner);
  }

  lemma HeldIsPending(a: Allocation, k: nat, owner: nat)
    requires Inv(a) && IsOp(a, k) && Holds(a, k, owner)
    ensures a.PendingSync() && a.Desired() == a.ops[k].presence
  {
    HolderIsCurrent(a, k, owner);
  }

  lemma LoadKeeps(p: Panel, at: Address)
    requires PanelOk(p, at) && AddressOk(at) && p.attempt.Granted? && IsOp(Allocated(p), p.attempt.op)
    ensures var a, t := Allocated(p), p.attempt;
            var w := Sync(at.tag, at.identity, a.inbound.port, a.ops[t.op].presence, a.ops[t.op].reason, a.desiredVersion);
            PanelOk(p.(attempt := Running(t.op, t.owner, Look(a), w, p.node, Start(w))), at)
  {
    hide System.WorldOk, Projection.At, CredentialsOk, Start, Suits;
    var a, t := Allocated(p), p.attempt;
    WorldInv(p.rows);
    var w := Sync(at.tag, at.identity, a.inbound.port, a.ops[t.op].presence, a.ops[t.op].reason, a.desiredVersion);
    Projection.AtStart(w, p.node, Start(w));
    StartSuits(w);
  }

  lemma StartSuits(w: Work)
    ensures Suits(w, Start(w))
  {
  }

  lemma SteppedKeeps(p: Panel, at: Address, c: Choice, now: int, duration: int)
    requires PanelOk(p, at) && AddressOk(at) && p.attempt.Running? && Honest(c) && !p.attempt.pc.End? && Fits(p.attempt.work, p.attempt.pc)
    requires IsOp(Allocated(p), p.attempt.op)
    ensures PanelOk(Stepped(p, c, now, duration), at)
  {
    hide Inv, Evolves, System.WorldOk, Projection.At, Suits, Fits, Step, Emit, Renew, SnapshotOk;
    var a, t := Allocated(p), p.attempt;
    var fence := Emit(t.work, t.pc).Fence?;
    var renewed := if fence then Renew(a, t.op, t.owner, now, duration) else None;
    var choice := if fence then c.(held := renewed.Some?) else c;
    WorldInv(p.rows);
    Projection.StepKeeps(t.work, t.start, t.pc, p.node, choice);
    StepSuits(t.work, t.pc, p.node, choice);
    if renewed.Some? {
      RenewKeeps(a, t.op, t.owner, now, duration);
      RowsKeep(p, renewed.value);
      SnapshotsAge(a, renewed.value, t.look);
      Requests(a, renewed.value, t.op);
      HeldIsPending(renewed.value, t.op, t.owner);
    }
  }

  /** A confirmation says what is there; any other ending leaves the user out of step. */
  lemma ConcludeKeeps(p: Panel, at: Address, options: Worker.Options, now: int)
    requires PanelOk(p, at) && AddressOk(at) && p.attempt.Running? && p.attempt.pc.End? && options.owner == p.attempt.owner
    requires IsOp(Allocated(p), p.attempt.op)
    ensures PanelOk(WithRows(p, Worker.AfterOutcome(Allocated(p), p.attempt.op, p.attempt.pc.outcome, options, now)).(attempt := Idle), at)
  {
    hide Inv, Evolves, System.WorldOk, Projection.At, Worker.AfterOutcome, SnapshotOk;
    var a, t := Allocated(p), p.attempt;
    var o := t.pc.outcome;
    WorldInv(p.rows);
    OutcomeKeeps(a, t.op, o, t.look, options, now);
    RowsKeep(p, Worker.AfterOutcome(a, t.op, o, options, now));
    if o.Confirm? { ConfirmedPresence(t.work, t.start, t.pc, p.node); }
  }

  lemma ConfirmedPresence(w: Work, n0: Node, end: Pc, n: Node)
    requires IsPanelNamespace(w.tag) && w.expected != "" && w.Sync? && Projection.At(w, n0, end, n) && end.End? && end.outcome.Confirm?
    ensures w.tag in n.inbounds <==> w.presence
  {
    hide Projection.At, Projection.OthersSame;
    Projection.FramedOthers(w, n0, end, n);
    Projection.ConfirmedAt(w, n0, end, n);
  }

  /** What an ending writes: either the user is still out of step, or the presence confirmed is the desired one. */
  lemma OutcomeKeeps(a: Allocation, k: nat, o: Outcome, look: Snapshot, options: Worker.Options, now: int)
    requires Inv(a) && IsOp(a, k) && a.PendingSync() && SnapshotOk(a, look) && look.revision >= a.ops[k].revision
    requires o.Confirm? ==> o == Outcome.Confirm(a.ops[k].presence, if a.ops[k].presence then look.version else 0)
    ensures var b := Worker.AfterOutcome(a, k, o, options, now);
            Keeps(a, b) && (b.PendingSync() || (o.Confirm? && b.Desired() == a.ops[k].presence))
  {
    hide Inv, Evolves, SnapshotOk, Intent.Confirm, FinishLeased, Worker.Later;
    var owner, attempts := options.owner, a.ops[k].attempts;
    SameEvolves(a);
    match o {
      case Confirm(_, _) =>
        ConfirmKeeps(a, k, owner, look);
        var b := Intent.Confirm(a, k, owner, if a.ops[k].presence then look.version else 0, a.ops[k].presence).0;
        if Holds(a, k, owner) {
          HeldIsPending(a, k, owner);
          Revisions(a, b);
        }
      case Retry(_) =>
        FinishLeasedKeeps(a, k, owner, if IsPermanent(o, attempts) then Fail else Worker.Later(attempts, now, options));
      case RetryLater(_) => FinishLeasedKeeps(a, k, owner, Worker.Later(attempts, now, options));
      case GiveUp(_) => FinishLeasedKeeps(a, k, owner, Fail);
      case Abandon =>
    }
  }

  lemma AroundKeeps(p: Panel, at: Address, n': Node)
    requires PanelOk(p, at) && p.attempt.Idle? && LeavesInbound(Allocated(p), at.tag, p.node, n')
    ensures PanelOk(p.(node := n'), at)
  {
    hide System.WorldOk, CredentialsOk, SyncOk;
    WorldInv(p.rows);
  }

  lemma NextKeeps(h: seq<Reading>, interval: int, p: Panel, at: Address, e: Event)
    requires PanelOk(p, at) && AddressOk(at) && System.Unsigned(h) && Enabled(p, at, e)
    ensures |p.rows.account.book.cycles| > 0 && PanelOk(Next(h, interval, p, at, e), at)
  {
    hide System.Unsigned, PanelOk, Stepped, LeavesInbound, AddressOk, Fits, LeaseOp, Worker.AfterOutcome, System.Next;
    RowsOk(p, at);
    var a, t := Allocated(p), p.attempt;
    match e {
      case Elsewhere(action) => ElsewhereKeeps(h, interval, p, at, action);
      case Begin(k, owner, now, duration) =>
        if t.Idle? && IsOp(a, k) && LeaseOp(a, k, owner, now, duration).Some? { BeginKeeps(p, at, k, owner, now, duration); }
      case Load => if t.Granted? && IsOp(a, t.op) { LoadKeeps(p, at); }
      case Act(c, now, duration) =>
        if t.Running? && Fits(t.work, t.pc) && !t.pc.End? && IsOp(a, t.op) { SteppedKeeps(p, at, c, now, duration); }
      case Conclude(options, now) =>
        if t.Running? && t.pc.End? && options.owner == t.owner && IsOp(a, t.op) { ConcludeKeeps(p, at, options, now); }
      case Die => DyingKeeps(p, at);
      case Around(n') => AroundKeeps(p, at, n');
    }
  }

  lemma DyingKeeps(p: Panel, at: Address)
    requires PanelOk(p, at)
    ensures PanelOk(p.(attempt := Idle), at)
  {
    hide System.WorldOk;
  }

  // ---- runs ----

  ghost predicate Feasible(h: seq<Reading>, interval: int, p: Panel, at: Address, events: seq<Event>)
    requires PanelOk(p, at) && AddressOk(at) && System.Unsigned(h)
    decreases |events|
  {
    hide PanelOk, Next, Enabled;
    events != [] ==>
      if Enabled(p, at, events[0]) then
        NextKeeps(h, interval, p, at, events[0]);
        Feasible(h, interval, Next(h, interval, p, at, events[0]), at, events[1..])
      else false
  }

  /** Every feasible run from a consistent state stays consistent. */
  ghost function Run(h: seq<Reading>, interval: int, p: Panel, at: Address, events: seq<Event>): (r: Panel)
    requires PanelOk(p, at) && AddressOk(at) && System.Unsigned(h) && Feasible(h, interval, p, at, events)
    ensures PanelOk(r, at)
    decreases |events|
  {
    hide PanelOk, Next, Enabled;
    if events == [] then p
    else
      NextKeeps(h, interval, p, at, events[0]);
      Run(h, interval, Next(h, interval, p, at, events[0]), at, events[1..])
  }

  /** A user just created, with any node. */
  ghost function Opening(policy: Policy, port: int, key: int, now: int, offset: int, at: Address, n: Node): (p: Panel)
    requires PolicyOk(policy)
    ensures PanelOk(p, at)
  {
    hide System.WorldOk;
    Panel(System.Newborn(policy, port, key, now, offset), n, Idle)
  }

  /** In every state one process can reach, with no attempt under way: a user whose rows say that nothing is pending has
      its inbound on the node exactly if it should listen. */
  lemma SyncedMeansSo(h: seq<Reading>, interval: int, policy: Policy, port: int, key: int, now: int, offset: int,
                      at: Address, n: Node, events: seq<Event>)
    requires System.Unsigned(h) && PolicyOk(policy) && AddressOk(at)
    requires Feasible(h, interval, Opening(policy, port, key, now, offset, at, n), at, events)
    ensures var p := Run(h, interval, Opening(policy, port, key, now, offset, at, n), at, events);
            p.attempt.Idle? && !Allocated(p).PendingSync() ==> (at.tag in p.node.inbounds <==> Allocated(p).Desired())
  {
    hide System.WorldOk, Opening, Feasible, Run;
  }
}
