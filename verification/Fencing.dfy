/** Leases in real time: any number of workers, crashes, slow calls. A call made for a record is over before
    anybody else can lease that record. */
module Fencing {
  import opened Domain
  import opened Xray
  import opened Synchronizer

  // ---- construction options ----

  const LEASE_RPC_MULTIPLE := 3
  const DEFAULT_LEASE := 30_000
  const DEFAULT_RPC_TIMEOUT := 5_000

  /** Durations in milliseconds. */
  datatype Timing = Timing(lease: int, timeout: int)

  /** Missing durations get their defaults, and a lease too short for three calls is stretched. */
  function Normalized(options: Timing): (t: Timing)
    ensures t.timeout > 0 && t.lease >= LEASE_RPC_MULTIPLE * t.timeout
    ensures options.timeout > 0 && options.lease >= LEASE_RPC_MULTIPLE * options.timeout ==> t == options
    ensures options.timeout <= 0 && options.lease <= 0 ==> t == Timing(30_000, 5_000)
    ensures options.timeout > 0 && options.lease < 3 * options.timeout && (options.lease > 0 || options.timeout >= 10_000) ==>
              t.timeout == options.timeout && t.lease == 3 * options.timeout
  {
    var lease := if options.lease <= 0 then DEFAULT_LEASE else options.lease;
    var timeout := if options.timeout <= 0 then DEFAULT_RPC_TIMEOUT else options.timeout;
    Timing(if lease < LEASE_RPC_MULTIPLE * timeout then LEASE_RPC_MULTIPLE * timeout else lease, timeout)
  }

  // ---- the budget between two fences ----

  /** Timeouts a call may take: removing a client lists the clients first. */
  function Cost(rpc: Rpc): nat { if rpc.RemoveUser? then 2 else 1 }

  /** Timeouts that may have gone by since the last fence when a program point is reached. */
  function Spent(pc: Pc): nat {
    match pc
    case ResidueHealthy | CompensatePort | DriftRemove => 1
    case CompensateResidue => 2
    case _ => 0
  }

  predicate IsCall(w: Work, pc: Pc) { Fits(w, pc) && !pc.End? && Emit(w, pc).Call? }

  /** No path spends more than three timeouts between two fences, and a call that follows another without a
      fence is charged for it. */
  lemma CallsFitTheBudget(w: Work, pc: Pc, r: Reply)
    requires IsCall(w, pc) && Answers(Emit(w, pc), r)
    ensures Spent(pc) + Cost(Emit(w, pc).rpc) <= LEASE_RPC_MULTIPLE
    ensures IsCall(w, Next(w, pc, r)) ==> Spent(Next(w, pc, r)) >= Spent(pc) + Cost(Emit(w, pc).rpc)
  {
    if IsDriftPc(pc) {
      hide EmitRotate, EmitCreate, NextRotate, NextCreate;
    } else if IsRotatePc(pc) {
      RotationFitsTheBudget(w, pc, r);
    } else {
      CreationFitsTheBudget(w, pc, r);
    }
  }

  lemma RotationFitsTheBudget(w: Work, pc: Pc, r: Reply)
    requires IsCall(w, pc) && IsRotatePc(pc) && Answers(Emit(w, pc), r)
    ensures Spent(pc) + Cost(Emit(w, pc).rpc) <= LEASE_RPC_MULTIPLE
    ensures !IsCall(w, Next(w, pc, r))
  {
    hide EmitDrift, NextDrift, NextCreate;
  }

  lemma CreationFitsTheBudget(w: Work, pc: Pc, r: Reply)
    requires IsCall(w, pc) && !IsDriftPc(pc) && !IsRotatePc(pc) && Answers(Emit(w, pc), r)
    ensures Spent(pc) + Cost(Emit(w, pc).rpc) <= LEASE_RPC_MULTIPLE
    ensures IsCall(w, Next(w, pc, r)) ==> Spent(Next(w, pc, r)) >= Spent(pc) + Cost(Emit(w, pc).rpc)
  {
    hide EmitDrift, EmitRotate, NextDrift, NextRotate;
  }

  /** A procedure never opens with a call, and local decryption is always followed by a fence. */
  lemma CallsAreFenced(w: Work, pc: Pc, r: Reply)
    requires Fits(w, pc) && !pc.End? && Answers(Emit(w, pc), r)
    ensures !IsCall(w, Start(w))
    ensures Emit(w, pc).Unseal? ==> !IsCall(w, Next(w, pc, r))
    ensures Emit(w, pc).Fence? && !r.held ==> !IsCall(w, Next(w, pc, r))
  {
  }

  // ---- the timed system ----

  /** A row of the operation queue or of the drift removal queue. */
  datatype Record = Waiting(due: int) | Leased(owner: nat, until: int) | Closed

  datatype Worker =
    | Idle
    | Running(record: nat, work: Work, pc: Pc, fenced: int, busy: Option<int>)
    | Crashed(record: nat, fenced: int, busy: Option<int>)

  datatype State = State(records: map<nat, Record>, workers: map<nat, Worker>, now: int)

  datatype Action =
    | Enqueue(record: nat, due: int)
    | Supersede(record: nat)
    | Lease(worker: nat, record: nat, work: Work)
    | Fence(worker: nat, current: bool)
    | Unseal(worker: nat, ok: bool)
    | Begin(worker: nat, duration: int)
    | Return(worker: nat, answer: Answer)
    | Finish(worker: nat, verdict: Record)
    | Crash(worker: nat)
    | Tick(elapsed: int)

  predicate Leasable(r: Record, now: int) {
    (r.Waiting? && r.due <= now) || (r.Leased? && r.until <= now)
  }

  predicate IsRunning(s: State, w: nat) {
    w in s.workers && s.workers[w].Running? && Fits(s.workers[w].work, s.workers[w].pc)
  }

  predicate CanEmit(s: State, w: nat) {
    IsRunning(s, w) && !s.workers[w].pc.End? && s.workers[w].busy.None?
  }

  /** Time passes for a call in flight up to its timeout, and anywhere else except between a fence (or a call)
      and the call that relies on it. */
  predicate MayWait(w: Worker, later: int) {
    w.Running? ==>
      if w.busy.Some? then later <= w.busy.value
      else !IsCall(w.work, w.pc)
  }

  predicate Enabled(t: Timing, s: State, a: Action) {
    match a
    case Enqueue(r, _) => r !in s.records
    case Supersede(r) => r in s.records
    case Lease(w, r, work) =>
      && w in s.workers && s.workers[w].Idle? && r in s.records && Leasable(s.records[r], s.now)
      && (work.Drift? ==> (work.reclaimed <==> s.records[r].Leased?))
    case Fence(w, _) => CanEmit(s, w) && Emit(s.workers[w].work, s.workers[w].pc).Fence?
    case Unseal(w, _) => CanEmit(s, w) && Emit(s.workers[w].work, s.workers[w].pc).Unseal?
    case Begin(w, duration) =>
      CanEmit(s, w) && IsCall(s.workers[w].work, s.workers[w].pc) &&
      0 < duration <= Cost(Emit(s.workers[w].work, s.workers[w].pc).rpc) * t.timeout
    case Return(w, answer) =>
      IsRunning(s, w) && IsCall(s.workers[w].work, s.workers[w].pc) && s.workers[w].busy == Some(s.now) &&
      Answers(Emit(s.workers[w].work, s.workers[w].pc), Answered(answer))
    case Finish(w, verdict) => IsRunning(s, w) && s.workers[w].pc.End? && !verdict.Leased?
    case Crash(w) => IsRunning(s, w)
    case Tick(elapsed) => elapsed > 0 && forall w :: w in s.workers ==> MayWait(s.workers[w], s.now + elapsed)
  }

  /** Renewal succeeds only for the holder, and only while its revision is current. */
  predicate Renews(s: State, w: nat, current: bool)
    requires IsRunning(s, w)
  {
    var r := s.workers[w].record;
    current && r in s.records && s.records[r].Leased? && s.records[r].owner == w
  }

  function Apply(t: Timing, s: State, a: Action): State
    requires Enabled(t, s, a)
  {
    match a
    case Enqueue(r, due) => s.(records := s.records[r := Waiting(due)])
    case Supersede(r) => s.(records := s.records[r := Closed])
    case Lease(w, r, work) =>
      s.(records := s.records[r := Leased(w, s.now + t.lease)],
         workers := s.workers[w := Running(r, work, Start(work), s.now, None)])
    case Fence(w, current) =>
      var v := s.workers[w];
      var held := Renews(s, w, current);
      var v' := v.(pc := Next(v.work, v.pc, Held(held)), fenced := if held then s.now else v.fenced);
      s.(records := if held then s.records[v.record := Leased(w, s.now + t.lease)] else s.records,
         workers := s.workers[w := v'])
    case Unseal(w, ok) =>
      var v := s.workers[w];
      s.(workers := s.workers[w := v.(pc := Next(v.work, v.pc, Unsealed(ok)))])
    case Begin(w, duration) =>
      var v := s.workers[w];
      s.(workers := s.workers[w := Running(v.record, v.work, v.pc, v.fenced, Some(s.now + duration))])
    case Return(w, answer) =>
      var v := s.workers[w];
      s.(workers := s.workers[w := v.(pc := Next(v.work, v.pc, Answered(answer)), busy := None)])
    case Finish(w, verdict) =>
      var r := s.workers[w].record;
      var holds := r in s.records && s.records[r].Leased? && s.records[r].owner == w;
      s.(records := if holds then s.records[r := verdict] else s.records, workers := s.workers[w := Idle])
    case Crash(w) =>
      var v := s.workers[w];
      s.(workers := s.workers[w := Crashed(v.record, v.fenced, v.busy)])
    case Tick(elapsed) => s.(now := s.now + elapsed)
  }

  // ---- the invariant ----

  /** The record is still this worker's, or closed for good, or the lease of that fence has run out. */
  predicate LeaseStands(t: Timing, s: State, w: nat, record: nat, fenced: int) {
    record in s.records &&
    (s.records[record] == Leased(w, fenced + t.lease) || s.records[record].Closed? || fenced + t.lease <= s.now)
  }

  predicate WorkerOk(t: Timing, s: State, w: nat)
    requires w in s.workers
  {
    var v := s.workers[w];
    match v
    case Idle => true
    case Crashed(record, fenced, busy) =>
      busy.Some? ==> busy.value <= fenced + t.lease && LeaseStands(t, s, w, record, fenced)
    case Running(record, work, pc, fenced, busy) =>
      && Fits(work, pc)
      && (busy.Some? ==> IsCall(work, pc))
      && (IsCall(work, pc) ==>
            && LeaseStands(t, s, w, record, fenced)
            && (if busy.None? then s.now <= fenced + Spent(pc) * t.timeout
                else s.now <= busy.value <= fenced + (Spent(pc) + Cost(Emit(work, pc).rpc)) * t.timeout))
  }

  predicate Inv(t: Timing, s: State) {
    forall w :: w in s.workers ==> WorkerOk(t, s, w)
  }

  predicate IsTiming(t: Timing) { t.timeout > 0 && t.lease >= LEASE_RPC_MULTIPLE * t.timeout }

  lemma BudgetIsWithinTheLease(t: Timing, units: nat)
    requires IsTiming(t) && units <= LEASE_RPC_MULTIPLE
    ensures units * t.timeout <= t.lease
    ensures units < LEASE_RPC_MULTIPLE ==> units * t.timeout < t.lease
  {
  }

  /** The acting worker's own obligation after its step. */
  lemma ActorKeeps(t: Timing, s: State, a: Action, w: nat)
    requires IsTiming(t) && Inv(t, s) && Enabled(t, s, a) && w in s.workers
    requires !a.Enqueue? && !a.Supersede? && !a.Tick? && a.worker == w
    ensures WorkerOk(t, Apply(t, s, a), w)
  {
    var v := s.workers[w];
    assert WorkerOk(t, s, w);
    match a
    case Lease(_, _, work) => CallsAreFenced(work, Start(work), if Emit(work, Start(work)).Fence? then Held(true) else Unsealed(true));
    case Fence(_, _) => FenceKeeps(t, s, a, w);
    case Unseal(_, _) => UnsealKeeps(t, s, a, w);
    case Begin(_, duration) => BeginKeeps(t, s, a, w);
    case Return(_, answer) => ReturnKeeps(t, s, a, w);
    case Crash(_) => CrashKeeps(t, s, a, w);
    case Finish(_, _) =>
  }

  lemma FenceKeeps(t: Timing, s: State, a: Action, w: nat)
    requires IsTiming(t) && Enabled(t, s, a) && w in s.workers && WorkerOk(t, s, w) && a.Fence? && a.worker == w
    ensures WorkerOk(t, Apply(t, s, a), w)
  {
    hide Emit, Next, Spent;
    var v := s.workers[w];
    var held := Renews(s, w, a.current);
    CallsAreFenced(v.work, v.pc, Held(held));
    NextDescends(v.work, v.pc, Held(held));
  }

  lemma UnsealKeeps(t: Timing, s: State, a: Action, w: nat)
    requires IsTiming(t) && Enabled(t, s, a) && w in s.workers && WorkerOk(t, s, w) && a.Unseal? && a.worker == w
    ensures WorkerOk(t, Apply(t, s, a), w)
  {
    var v := s.workers[w];
    CallsAreFenced(v.work, v.pc, Unsealed(a.ok));
    NextDescends(v.work, v.pc, Unsealed(a.ok));
    hide Emit, Next, Spent;
  }

  lemma BeginKeeps(t: Timing, s: State, a: Action, w: nat)
    requires IsTiming(t) && Enabled(t, s, a) && w in s.workers && WorkerOk(t, s, w) && a.Begin? && a.worker == w
    ensures WorkerOk(t, Apply(t, s, a), w)
  {
    hide Emit, Next;
    var v := s.workers[w];
    var spent, cost := Spent(v.pc), Cost(Emit(v.work, v.pc).rpc);
    assert (spent + cost) * t.timeout == spent * t.timeout + cost * t.timeout;
  }

  lemma ReturnKeeps(t: Timing, s: State, a: Action, w: nat)
    requires IsTiming(t) && Enabled(t, s, a) && w in s.workers && WorkerOk(t, s, w) && a.Return? && a.worker == w
    ensures WorkerOk(t, Apply(t, s, a), w)
  {
    var v := s.workers[w];
    CallsFitTheBudget(v.work, v.pc, Answered(a.answer));
    NextDescends(v.work, v.pc, Answered(a.answer));
    hide Emit, Next;
    var pc' := Next(v.work, v.pc, Answered(a.answer));
    if IsCall(v.work, pc') {
      var units := Spent(v.pc) + Cost(Emit(v.work, v.pc).rpc);
      assert units * t.timeout <= Spent(pc') * t.timeout;
    }
  }

  lemma CrashKeeps(t: Timing, s: State, a: Action, w: nat)
    requires IsTiming(t) && Enabled(t, s, a) && w in s.workers && WorkerOk(t, s, w) && a.Crash? && a.worker == w
    ensures WorkerOk(t, Apply(t, s, a), w)
  {
    var v := s.workers[w];
    if v.busy.Some? {
      var e := Emit(v.work, v.pc);
      CallsFitTheBudget(v.work, v.pc, Answered(Refused(Cause(Internal, true))));
      hide Emit, Next;
      BudgetIsWithinTheLease(t, Spent(v.pc) + Cost(e.rpc));
    }
  }

  /** Nobody else's step disturbs a worker whose lease stands. */
  lemma OthersKeep(t: Timing, s: State, a: Action, w: nat)
    requires IsTiming(t) && Inv(t, s) && Enabled(t, s, a) && w in s.workers
    requires a.Enqueue? || a.Supersede? || a.Tick? || a.worker != w
    ensures WorkerOk(t, Apply(t, s, a), w)
  {
    hide Emit, Next;
    assert WorkerOk(t, s, w);
    if a.Tick? {
      assert MayWait(s.workers[w], s.now + a.elapsed);
    }
  }

  lemma StepKeeps(t: Timing, s: State, a: Action)
    requires IsTiming(t) && Inv(t, s) && Enabled(t, s, a)
    ensures Inv(t, Apply(t, s, a))
  {
    hide WorkerOk, Emit, Next;
    var s' := Apply(t, s, a);
    forall w | w in s'.workers
      ensures WorkerOk(t, s', w)
    {
      assert w in s.workers;
      if !a.Enqueue? && !a.Supersede? && !a.Tick? && a.worker == w {
        ActorKeeps(t, s, a, w);
      } else {
        OthersKeep(t, s, a, w);
      }
    }
  }

  // ---- every run ----

  predicate Initial(s: State) {
    forall w :: w in s.workers ==> s.workers[w].Idle?
  }

  /** s' is reached from s by exactly these actions. */
  predicate Runs(t: Timing, s: State, actions: seq<Action>, s': State)
    decreases |actions|
  {
    if actions == [] then s' == s
    else Enabled(t, s, actions[0]) && Runs(t, Apply(t, s, actions[0]), actions[1..], s')
  }

  lemma {:induction false} RunKeeps(t: Timing, s: State, actions: seq<Action>, s': State)
    requires IsTiming(t) && Inv(t, s) && Runs(t, s, actions, s')
    ensures Inv(t, s')
    decreases |actions|
  {
    hide Inv, Enabled, Apply;
    if actions != [] {
      StepKeeps(t, s, actions[0]);
      RunKeeps(t, Apply(t, s, actions[0]), actions[1..], s');
    }
  }

  /** A call of this worker, dead or alive, is still running on behalf of the record. */
  predicate InFlight(s: State, w: nat, record: nat) {
    w in s.workers && !s.workers[w].Idle? && s.workers[w].record == record &&
    s.workers[w].busy.Some? && s.now < s.workers[w].busy.value
  }

  /** No call is ever still running for a record that somebody could lease. */
  lemma NoCallOutlivesItsLease(options: Timing, s: State, actions: seq<Action>, s': State, w: nat, record: nat)
    requires var t := Normalized(options); Initial(s) && Runs(t, s, actions, s')
    requires InFlight(s', w, record)
    ensures record in s'.records && !Leasable(s'.records[record], s'.now)
  {
    var t := Normalized(options);
    RunKeeps(t, s, actions, s');
    assert WorkerOk(t, s', w);
    var v := s'.workers[w];
    if v.Running? {
      CallsFitTheBudget(v.work, v.pc, Answered(Refused(Cause(Internal, true))));
      hide Emit, Next;
      BudgetIsWithinTheLease(t, Spent(v.pc) + Cost(Emit(v.work, v.pc).rpc));
    }
  }

  /** The longest stretch of calls behind one fence: the removal of an unknown client, taken over from a worker that
      died with the lease. */
  function Removal(reclaimed: bool): Work { Drift("xpanel-a", false, "x", "xpanel-a", reclaimed) }

  const STRETCH: nat := 11

  function LongestStretch(t: Timing): seq<Action> {
    [Enqueue(0, 0), Lease(1, 0, Removal(false)), Crash(1), Tick(t.lease),
     Lease(0, 0, Removal(true)), Action.Fence(0, true), Begin(0, t.timeout), Tick(t.timeout),
     Return(0, Clients({"x"})), Begin(0, 2 * t.timeout), Tick(2 * t.timeout - 1)]
  }

  /** The taker's side of the run. */
  function Taking(t: Timing, pc: Pc, busy: Option<int>, now: int): State {
    State(map[0 := Leased(0, 2 * t.lease)], map[0 := Running(0, Removal(true), pc, t.lease, busy), 1 := Crashed(0, 0, None)], now)
  }

  function StretchState(t: Timing, i: nat): State {
    var l, left := t.lease, map[0 := Leased(1, t.lease)];
    if i == 0 then State(map[], map[0 := Idle, 1 := Idle], 0)
    else if i == 1 then State(map[0 := Waiting(0)], map[0 := Idle, 1 := Idle], 0)
    else if i == 2 then State(left, map[0 := Idle, 1 := Running(0, Removal(false), DriftFence, 0, None)], 0)
    else if i == 3 then State(left, map[0 := Idle, 1 := Crashed(0, 0, None)], 0)
    else if i == 4 then State(left, map[0 := Idle, 1 := Crashed(0, 0, None)], l)
    else if i == 5 then Taking(t, DriftFence, None, l)
    else if i == 6 then Taking(t, DriftPeek, None, l)
    else if i == 7 then Taking(t, DriftPeek, Some(l + t.timeout), l)
    else if i == 8 then Taking(t, DriftPeek, Some(l + t.timeout), l + t.timeout)
    else if i == 9 then Taking(t, DriftRemove, None, l + t.timeout)
    else if i == 10 then Taking(t, DriftRemove, Some(l + 3 * t.timeout), l + t.timeout)
    else Taking(t, DriftRemove, Some(l + 3 * t.timeout), l + 3 * t.timeout - 1)
  }

  /** What the procedure does on this path. */
  lemma RemovalPath(w: Work)
    requires w == Removal(true)
    ensures Emit(w, DriftFence) == Effect.Fence && Next(w, DriftFence, Held(true)) == DriftPeek
    ensures Emit(w, DriftPeek) == Call(ListUsers(w.tag)) && Next(w, DriftPeek, Answered(Clients({w.target}))) == DriftRemove
    ensures Emit(w, DriftRemove) == Call(RemoveUser(w.tag, w.target, w.expected))
  {
  }

  predicate Moves(t: Timing, s: State, a: Action, s': State) { Enabled(t, s, a) && Apply(t, s, a) == s' }

  /** A worker takes a record and dies. */
  lemma LoserMoves(t: Timing)
    requires t.timeout > 0 && t.lease > 0
    ensures forall i :: 0 <= i < 3 ==> Moves(t, StretchState(t, i), LongestStretch(t)[i], StretchState(t, i + 1))
  {
    hide Emit, Next, Taking;
  }

  /** The lease runs out, and another worker takes over. */
  lemma TakerLeases(t: Timing)
    requires t.timeout > 0 && t.lease > 0
    ensures Moves(t, StretchState(t, 3), Tick(t.lease), StretchState(t, 4))
    ensures Moves(t, StretchState(t, 4), Lease(0, 0, Removal(true)), StretchState(t, 5))
  {
    hide Emit, Next;
  }

  lemma TakerFences(t: Timing)
    requires t.lease > 0
    ensures Moves(t, Taking(t, DriftFence, None, t.lease), Action.Fence(0, true), Taking(t, DriftPeek, None, t.lease))
  {
    hide Emit, Next;
    RemovalPath(Removal(true));
  }

  lemma TakerCalls(t: Timing, pc: Pc, now: int, duration: int)
    requires (pc == DriftPeek && 0 < duration <= t.timeout) || (pc == DriftRemove && 0 < duration <= 2 * t.timeout)
    ensures Moves(t, Taking(t, pc, None, now), Begin(0, duration), Taking(t, pc, Some(now + duration), now))
  {
    hide Emit, Next, Start, Renews;
    RemovalPath(Removal(true));
  }

  lemma TakerWaits(t: Timing, pc: Pc, now: int, elapsed: int, until: int)
    requires elapsed > 0 && now + elapsed <= until
    ensures Moves(t, Taking(t, pc, Some(until), now), Tick(elapsed), Taking(t, pc, Some(until), now + elapsed))
  {
    hide Emit, Next;
  }

  lemma TakerIsAnswered(t: Timing, now: int)
    ensures Moves(t, Taking(t, DriftPeek, Some(now), now), Return(0, Clients({"x"})), Taking(t, DriftRemove, None, now))
  {
    hide Emit, Next;
    RemovalPath(Removal(true));
  }

  lemma StretchStep(t: Timing, i: nat)
    requires t.timeout > 0 && t.lease > 0 && i < STRETCH
    ensures Moves(t, StretchState(t, i), LongestStretch(t)[i], StretchState(t, i + 1))
  {
    hide Moves, Taking;
    var l, d := t.lease, t.timeout;
    LoserMoves(t);
    TakerLeases(t);
    TakerFences(t);
    TakerCalls(t, DriftPeek, l, d);
    TakerWaits(t, DriftPeek, l, d, l + d);
    TakerIsAnswered(t, l + d);
    TakerCalls(t, DriftRemove, l + d, 2 * d);
    TakerWaits(t, DriftRemove, l + d, 2 * d - 1, l + 3 * d);
  }

  lemma {:induction false} StretchRuns(t: Timing, i: nat)
    requires t.timeout > 0 && t.lease > 0 && i <= STRETCH
    ensures Runs(t, StretchState(t, i), LongestStretch(t)[i..], StretchState(t, STRETCH))
    decreases STRETCH - i
  {
    hide Enabled, Apply, StretchState;
    var rest := LongestStretch(t)[i..];
    if i < STRETCH {
      StretchStep(t, i);
      StretchRuns(t, i + 1);
      assert rest[0] == LongestStretch(t)[i] && rest[1..] == LongestStretch(t)[i + 1..];
    }
  }

  /** The multiple is exact: with any shorter lease there is a run in which a call is in flight for a record
      that another worker can lease. */
  lemma ShorterLeaseIsUnsafe(t: Timing)
    requires t.timeout > 0 && 0 < t.lease < LEASE_RPC_MULTIPLE * t.timeout
    ensures exists s, s' :: Initial(s) && Runs(t, s, LongestStretch(t), s') && InFlight(s', 0, 0) &&
                            0 in s'.records && Leasable(s'.records[0], s'.now)
  {
    StretchRuns(t, 0);
    assert LongestStretch(t)[0..] == LongestStretch(t);
    assert Runs(t, StretchState(t, 0), LongestStretch(t), StretchState(t, STRETCH));
    hide Runs;
    assert Initial(StretchState(t, 0)) && InFlight(StretchState(t, STRETCH), 0, 0);
  }
}
