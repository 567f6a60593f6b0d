/** The byte books of one allocation: lifetime totals, daily aggregates, the chain of quota cycles and the reset
    events, and what a settlement, a commit and a manual reset do to them. */
module Ledger {
  import opened Domain
  import opened Calendar

  datatype Bytes = Bytes(up: int, down: int) {
    function Plus(b: Bytes): Bytes { Bytes(up + b.up, down + b.down) }
    predicate Counts() { up >= 0 && down >= 0 }
    predicate Fits() { 0 <= up <= MAX_INT64 && 0 <= down <= MAX_INT64 }
  }

  const ZERO := Bytes(0, 0)

  /** `offset` is the zone the cycle was opened under. */
  datatype Cycle = Cycle(start: int, end: int, offset: int, open: bool, gross: Bytes, accounted: Bytes, resets: nat)

  datatype ResetEvent = ResetEvent(cycle: nat, previous: Bytes)

  datatype Day = Day(start: int, bytes: Bytes)

  datatype Policy = Policy(limit: Option<int>, resetDay: int)

  datatype Book = Book(policy: Policy, total: Bytes, days: seq<Day>, cycles: seq<Cycle>, events: seq<ResetEvent>)

  predicate PolicyOk(p: Policy) {
    IsResetDay(p.resetDay) && (p.limit.Some? ==> 0 < p.limit.value <= MAX_LIMIT)
  }

  // ---- the chain of cycles ----

  ghost predicate ChainOk(cycles: seq<Cycle>) {
    && |cycles| > 0
    && (forall i :: 0 <= i < |cycles| ==> cycles[i].start < cycles[i].end)
    && (forall i :: 0 < i < |cycles| ==> cycles[i - 1].end == cycles[i].start)
    && (forall i :: 0 <= i < |cycles| ==> (cycles[i].open <==> i == |cycles| - 1))
  }

  /** The open cycle of a well-formed chain. */
  function Open(cycles: seq<Cycle>): Cycle
    requires |cycles| > 0
  {
    cycles[|cycles| - 1]
  }

  function SetOpen(cycles: seq<Cycle>, c: Cycle): seq<Cycle>
    requires |cycles| > 0
  {
    cycles[|cycles| - 1 := c]
  }

  function NewCycle(start: int, end: int, offset: int): Cycle {
    Cycle(start, end, offset, true, ZERO, ZERO, 0)
  }

  /** Closes the open cycle and opens the one that follows it. */
  function Roll(cycles: seq<Cycle>, end: int, offset: int): seq<Cycle>
    requires |cycles| > 0
  {
    SetOpen(cycles, Open(cycles).(open := false)) + [NewCycle(Open(cycles).end, end, offset)]
  }

  /** Crosses every boundary up to `now`, under the reset day and zone of this transaction. */
  function Settle(cycles: seq<Cycle>, resetDay: int, offset: int, now: int): Option<seq<Cycle>>
    requires |cycles| > 0
    decreases if Open(cycles).end <= now then now - Open(cycles).end + 1 else 0
  {
    if Open(cycles).end > now then Some(cycles)
    else match CycleBounds(Open(cycles).end, offset, resetDay)
      case None => None
      case Some(bounds) =>
        if bounds.1 <= Open(cycles).end then None
        else Settle(Roll(cycles, bounds.1, offset), resetDay, offset, now)
  }

  /** What a settlement leaves: the old cycles as they were but closed, then empty ones. */
  ghost predicate Extends(cycles: seq<Cycle>, later: seq<Cycle>) {
    && |later| >= |cycles| > 0
    && (forall i :: 0 <= i < |cycles| - 1 ==> later[i] == cycles[i])
    && later[|cycles| - 1] == Open(cycles).(open := |later| == |cycles| && Open(cycles).open)
    && (forall i :: |cycles| <= i < |later| ==> later[i].gross == ZERO && later[i].accounted == ZERO && later[i].resets == 0)
  }

  lemma RollKeepsChain(cycles: seq<Cycle>, end: int, offset: int)
    requires ChainOk(cycles) && Open(cycles).end < end
    ensures ChainOk(Roll(cycles, end, offset)) && Extends(cycles, Roll(cycles, end, offset))
    ensures Open(Roll(cycles, end, offset)) == NewCycle(Open(cycles).end, end, offset)
  {
  }

  lemma ExtendsTransitively(a: seq<Cycle>, b: seq<Cycle>, c: seq<Cycle>)
    requires Extends(a, b) && Extends(b, c) && |a| < |b| && !b[|a| - 1].open
    ensures Extends(a, c)
  {
  }

  /** A settlement always ends, keeps the chain contiguous with exactly one open cycle, the last, and that cycle ends
      after now; whenever a boundary was crossed it contains now. */
  lemma {:induction false} SettleKeepsChain(cycles: seq<Cycle>, resetDay: int, offset: int, now: int)
    requires ChainOk(cycles) && IsResetDay(resetDay)
    ensures var r := Settle(cycles, resetDay, offset, now);
            && r.Some? && ChainOk(r.value) && Extends(cycles, r.value)
            && Open(r.value).end > now
            && (|r.value| > |cycles| ==> Open(r.value).start <= now && Open(r.value).accounted == ZERO)
            && (|r.value| == |cycles| <==> Open(cycles).end > now)
            && (|r.value| == |cycles| ==> r.value == cycles)
    decreases if Open(cycles).end <= now then now - Open(cycles).end + 1 else 0
  {
    hide CycleBounds;
    if Open(cycles).end <= now {
      CyclesPartitionTime(Open(cycles).end, 0, offset, resetDay);
      var end := CycleBounds(Open(cycles).end, offset, resetDay).value.1;
      var next := Roll(cycles, end, offset);
      RollKeepsChain(cycles, end, offset);
      SettleKeepsChain(next, resetDay, offset, now);
      ExtendsTransitively(cycles, next, Settle(next, resetDay, offset, now).value);
    }
  }

  /** Settling twice is settling once, at the later instant. */
  lemma {:induction false} SettleTwice(cycles: seq<Cycle>, resetDay: int, offset: int, t1: int, t2: int)
    requires ChainOk(cycles) && IsResetDay(resetDay)
    ensures var r := Settle(cycles, resetDay, offset, t1);
            && r.Some? && |r.value| > 0
            && Settle(r.value, resetDay, offset, t2) == Settle(cycles, resetDay, offset, if t1 <= t2 then t2 else t1)
    decreases if Open(cycles).end <= t1 then t1 - Open(cycles).end + 1 else 0
  {
    hide CycleBounds;
    if Open(cycles).end <= t1 {
      CyclesPartitionTime(Open(cycles).end, 0, offset, resetDay);
      var end := CycleBounds(Open(cycles).end, offset, resetDay).value.1;
      RollKeepsChain(cycles, end, offset);
      SettleTwice(Roll(cycles, end, offset), resetDay, offset, t1, t2);
    }
    SettleKeepsChain(cycles, resetDay, offset, t1);
  }

  // ---- adding and resetting ----

  function SumGross(cycles: seq<Cycle>): Bytes {
    if cycles == [] then ZERO else SumGross(cycles[..|cycles| - 1]).Plus(cycles[|cycles| - 1].gross)
  }

  function SumDays(days: seq<Day>): Bytes {
    if days == [] then ZERO else days[0].bytes.Plus(SumDays(days[1..]))
  }

  /** What the reset events took out of a cycle. */
  function SumEvents(events: seq<ResetEvent>, cycle: nat): Bytes {
    if events == [] then ZERO
    else
      var rest := SumEvents(events[..|events| - 1], cycle);
      var last := events[|events| - 1];
      if last.cycle == cycle then rest.Plus(last.previous) else rest
  }

  function CountEvents(events: seq<ResetEvent>, cycle: nat): nat {
    if events == [] then 0
    else CountEvents(events[..|events| - 1], cycle) + if events[|events| - 1].cycle == cycle then 1 else 0
  }

  /** One row per day: insert, or add to the row that is there. */
  function Upsert(days: seq<Day>, start: int, delta: Bytes): seq<Day> {
    if days == [] then [Day(start, delta)]
    else if days[0].start == start then [Day(start, days[0].bytes.Plus(delta))] + days[1..]
    else [days[0]] + Upsert(days[1..], start, delta)
  }

  function AddTraffic(b: Book, delta: Bytes, day: int): Book
    requires |b.cycles| > 0
  {
    if delta == ZERO then b
    else
      var c := Open(b.cycles);
      b.(total := b.total.Plus(delta), days := Upsert(b.days, day, delta),
         cycles := SetOpen(b.cycles, c.(gross := c.gross.Plus(delta), accounted := c.accounted.Plus(delta))))
  }

  /** Zeroes the accounted bytes of a cycle that must still be open. */
  function ResetCycle(b: Book, cycle: nat): Option<Book> {
    if cycle >= |b.cycles| || !b.cycles[cycle].open then None
    else
      var c := b.cycles[cycle];
      Some(b.(events := b.events + [ResetEvent(cycle, c.accounted)],
              cycles := b.cycles[cycle := c.(accounted := ZERO, resets := c.resets + 1)]))
  }

  ghost predicate DaysOk(days: seq<Day>) {
    && (forall i :: 0 <= i < |days| ==> days[i].bytes.Counts())
    && (forall i, j :: 0 <= i < j < |days| ==> days[i].start != days[j].start)
  }

  /** Gross is accounted plus what the resets of the cycle took out. */
  predicate CycleOk(c: Cycle, events: seq<ResetEvent>, i: nat) {
    && c.accounted.Counts() && SumEvents(events, i).Counts()
    && c.gross == c.accounted.Plus(SumEvents(events, i)) && c.resets == CountEvents(events, i)
  }

  ghost predicate CyclesOk(cycles: seq<Cycle>, events: seq<ResetEvent>) {
    forall i :: 0 <= i < |cycles| ==> CycleOk(cycles[i], events, i)
  }

  ghost predicate EventsOk(cycles: seq<Cycle>, events: seq<ResetEvent>) {
    forall i :: 0 <= i < |events| ==> events[i].cycle < |cycles| && events[i].previous.Counts()
  }

  /** The books balance: the lifetime total is the sum of the cycles' gross bytes and the sum of the days; in each
      cycle gross is accounted plus what its reset events took out. */
  ghost predicate BookOk(b: Book) {
    && PolicyOk(b.policy) && ChainOk(b.cycles) && DaysOk(b.days)
    && EventsOk(b.cycles, b.events) && CyclesOk(b.cycles, b.events)
    && SumGross(b.cycles) == b.total && SumDays(b.days) == b.total
  }

  /** The books of a new user: one open cycle around the moment of creation. */
  function OpenBook(policy: Policy, start: int, end: int, offset: int): Book {
    Book(policy, ZERO, [], [NewCycle(start, end, offset)], [])
  }

  lemma OpenBookOk(policy: Policy, start: int, end: int, offset: int)
    requires PolicyOk(policy) && start < end
    ensures BookOk(OpenBook(policy, start, end, offset))
  {
    hide PolicyOk, SumGross, SumDays, CyclesOk;
    OneCycleSums(OpenBook(policy, start, end, offset));
    OneCycleIsOk(OpenBook(policy, start, end, offset));
  }

  lemma OneCycleSums(b: Book)
    requires |b.cycles| == 1 && |b.days| == 0 && b.total == ZERO && b.cycles[0].gross == ZERO
    ensures SumGross(b.cycles) == b.total && SumDays(b.days) == b.total
  {
    hide SumGross;
    SumGrossStep(b.cycles);
    NoGross(b.cycles[..|b.cycles| - 1]);
  }

  lemma OneCycleIsOk(b: Book)
    requires |b.cycles| == 1 && |b.events| == 0
    requires b.cycles[0].gross == ZERO && b.cycles[0].accounted == ZERO && b.cycles[0].resets == 0
    ensures CyclesOk(b.cycles, b.events)
  {
    hide CycleOk;
    FreshCycle(b.cycles[0], b.events);
  }

  lemma FreshCycle(c: Cycle, events: seq<ResetEvent>)
    requires c.gross == ZERO && c.accounted == ZERO && c.resets == 0 && |events| == 0
    ensures CycleOk(c, events, 0)
  {
    hide SumEvents, CountEvents;
    NoEvents(events, 0);
  }

  lemma NoGross(cycles: seq<Cycle>)
    requires |cycles| == 0
    ensures SumGross(cycles) == ZERO
  {
  }

  lemma NoEvents(events: seq<ResetEvent>, cycle: nat)
    requires |events| == 0
    ensures SumEvents(events, cycle) == ZERO && CountEvents(events, cycle) == 0
  {
  }

  // ---- sums over the chain ----

  lemma SumGrossExtends(cycles: seq<Cycle>, later: seq<Cycle>)
    requires Extends(cycles, later)
    ensures SumGross(later) == SumGross(cycles)
  {
    SumGrossSame(cycles, later[..|cycles|]);
    SumGrossEmpty(later, |cycles|);
  }

  lemma {:induction false} SumGrossSame(a: seq<Cycle>, b: seq<Cycle>)
    requires |a| == |b| && forall i :: 0 <= i < |a| ==> a[i].gross == b[i].gross
    ensures SumGross(a) == SumGross(b)
  {
    if a != [] { SumGrossSame(a[..|a| - 1], b[..|b| - 1]); }
  }

  lemma SumGrossStep(cycles: seq<Cycle>)
    requires cycles != []
    ensures SumGross(cycles) == SumGross(cycles[..|cycles| - 1]).Plus(cycles[|cycles| - 1].gross)
  {
  }

  lemma {:induction false} SumGrossEmpty(cycles: seq<Cycle>, n: nat)
    requires n <= |cycles| && forall i :: n <= i < |cycles| ==> cycles[i].gross == ZERO
    ensures SumGross(cycles) == SumGross(cycles[..n])
  {
    hide SumGross;
    if n < |cycles| {
      var front := cycles[..|cycles| - 1];
      SumGrossStep(cycles);
      SumGrossEmpty(front, n);
      assert front[..n] == cycles[..n];
    } else {
      assert cycles[..n] == cycles;
    }
  }

  lemma {:induction false} GrossWithinTotal(cycles: seq<Cycle>, i: nat)
    requires i < |cycles| && forall k :: 0 <= k < |cycles| ==> cycles[k].gross.Counts()
    ensures cycles[i].gross.up <= SumGross(cycles).up && cycles[i].gross.down <= SumGross(cycles).down
    ensures SumGross(cycles).Counts()
  {
    var front := cycles[..|cycles| - 1];
    if i < |front| { GrossWithinTotal(front, i); }
    else if front != [] { GrossWithinTotal(front, 0); }
  }

  lemma {:induction false} DayWithinTotal(days: seq<Day>, i: nat)
    requires i < |days| && forall k :: 0 <= k < |days| ==> days[k].bytes.Counts()
    ensures days[i].bytes.up <= SumDays(days).up && days[i].bytes.down <= SumDays(days).down
    ensures SumDays(days).Counts()
  {
    if i > 0 { DayWithinTotal(days[1..], i - 1); }
    else if |days| > 1 { DayWithinTotal(days[1..], 0); }
  }

  lemma {:induction false} UpsertAdds(days: seq<Day>, start: int, delta: Bytes)
    ensures SumDays(Upsert(days, start, delta)) == SumDays(days).Plus(delta)
  {
    if days != [] && days[0].start != start {
      UpsertAdds(days[1..], start, delta);
    }
  }

  lemma {:induction false} UpsertKeepsDays(days: seq<Day>, start: int, delta: Bytes)
    requires DaysOk(days) && delta.Counts()
    ensures DaysOk(Upsert(days, start, delta))
    ensures forall d :: d in Upsert(days, start, delta) ==> d.start == start || d in days
  {
    if days != [] && days[0].start != start {
      UpsertKeepsDays(days[1..], start, delta);
      var rest := Upsert(days[1..], start, delta);
      forall j | 0 <= j < |rest| ensures rest[j].start != days[0].start {
        assert rest[j] in rest;
      }
    }
  }

  // ---- every operation keeps the books balanced ----

  lemma {:induction false} NoEventsBeyond(events: seq<ResetEvent>, n: nat)
    requires forall i :: 0 <= i < |events| ==> events[i].cycle < n
    ensures SumEvents(events, n) == ZERO && CountEvents(events, n) == 0
  {
    if events != [] { NoEventsBeyond(events[..|events| - 1], n); }
  }

  lemma ExtensionBalances(cycles: seq<Cycle>, later: seq<Cycle>, events: seq<ResetEvent>)
    requires Extends(cycles, later) && EventsOk(cycles, events) && CyclesOk(cycles, events)
    ensures EventsOk(later, events) && CyclesOk(later, events)
  {
    hide SumEvents, CountEvents;
    forall i | 0 <= i < |later|
      ensures later[i].accounted.Counts() && SumEvents(events, i).Counts()
      ensures later[i].gross == later[i].accounted.Plus(SumEvents(events, i)) && later[i].resets == CountEvents(events, i)
    {
      if i >= |cycles| { NoEventsBeyond(events, i); }
    }
  }

  lemma SettleKeepsBook(b: Book, offset: int, now: int)
    requires BookOk(b)
    ensures Settle(b.cycles, b.policy.resetDay, offset, now).Some?
    ensures BookOk(b.(cycles := Settle(b.cycles, b.policy.resetDay, offset, now).value))
  {
    assert |b.cycles| > 0;
    hide Settle, Extends, ChainOk, CyclesOk, EventsOk;
    SettleKeepsChain(b.cycles, b.policy.resetDay, offset, now);
    var later := Settle(b.cycles, b.policy.resetDay, offset, now).value;
    SumGrossExtends(b.cycles, later);
    ExtensionBalances(b.cycles, later, b.events);
  }

  /** What a day's row says; a day without one says nothing. */
  function BytesOn(days: seq<Day>, start: int): Bytes {
    if days == [] then ZERO else if days[0].start == start then days[0].bytes else BytesOn(days[1..], start)
  }

  /** Exactly the given day's bytes grow, by exactly the delta. */
  lemma {:induction false} UpsertMovesOneDay(days: seq<Day>, start: int, delta: Bytes, day: int)
    ensures BytesOn(Upsert(days, start, delta), day) ==
            if day == start then BytesOn(days, day).Plus(delta) else BytesOn(days, day)
  {
    if days != [] {
      UpsertMovesOneDay(days[1..], start, delta, day);
    }
  }

  lemma AddTrafficKeepsBook(b: Book, delta: Bytes, day: int)
    requires BookOk(b) && delta.Counts()
    ensures BookOk(AddTraffic(b, delta, day))
    ensures AddTraffic(b, delta, day).total == b.total.Plus(delta)
  {
    if delta != ZERO {
      UpsertAdds(b.days, day, delta);
      UpsertKeepsDays(b.days, day, delta);
      var n := |b.cycles| - 1;
      assert AddTraffic(b, delta, day).cycles[..n] == b.cycles[..n];
    }
  }

  /** What a reset event takes out of the cycle, it adds to that cycle's events alone. */
  lemma ResetEventCounts(b: Book, cycle: nat, i: nat)
    requires i < |b.cycles| && cycle < |b.cycles| && b.cycles[cycle].open && CycleOk(b.cycles[i], b.events, i)
    ensures var r := ResetCycle(b, cycle).value; CycleOk(r.cycles[i], r.events, i)
  {
    hide SumEvents, CountEvents;
    var r := ResetCycle(b, cycle).value;
    assert r.events[..|r.events| - 1] == b.events;
    EventsStep(r.events, i);
  }

  lemma EventsStep(events: seq<ResetEvent>, cycle: nat)
    requires events != []
    ensures var front, last := events[..|events| - 1], events[|events| - 1];
            && SumEvents(events, cycle) == (if last.cycle == cycle then SumEvents(front, cycle).Plus(last.previous) else SumEvents(front, cycle))
            && CountEvents(events, cycle) == CountEvents(front, cycle) + if last.cycle == cycle then 1 else 0
  {
  }

  lemma ResetKeepsBook(b: Book, cycle: nat)
    requires BookOk(b)
    ensures ResetCycle(b, cycle).Some? <==> cycle == |b.cycles| - 1
    ensures ResetCycle(b, cycle).Some? ==> BookOk(ResetCycle(b, cycle).value)
  {
    hide SumGross, SumDays, CycleOk, DaysOk, PolicyOk;
    if cycle == |b.cycles| - 1 {
      var r := ResetCycle(b, cycle).value;
      SumGrossSame(b.cycles, r.cycles);
      AccountedCounts(b, cycle);
      forall i | 0 <= i < |r.cycles| ensures CycleOk(r.cycles[i], r.events, i) {
        ResetEventCounts(b, cycle, i);
      }
    }
  }

  lemma AccountedCounts(b: Book, i: nat)
    requires i < |b.cycles| && CycleOk(b.cycles[i], b.events, i)
    ensures b.cycles[i].accounted.Counts()
  {
  }

  /** If the lifetime total fits an int64, so does every byte count there is. */
  lemma EverythingFits(b: Book)
    requires BookOk(b) && b.total.Fits()
    ensures forall i :: 0 <= i < |b.days| ==> b.days[i].bytes.Fits()
    ensures forall i :: 0 <= i < |b.cycles| ==>
              b.cycles[i].gross.Fits() && b.cycles[i].accounted.Fits() &&
              b.cycles[i].accounted.up <= b.total.up && b.cycles[i].accounted.down <= b.total.down
  {
    forall i | 0 <= i < |b.days| ensures b.days[i].bytes.Fits() {
      DayWithinTotal(b.days, i);
    }
    forall i | 0 <= i < |b.cycles|
      ensures b.cycles[i].gross.up <= b.total.up && b.cycles[i].gross.down <= b.total.down
    {
      GrossWithinTotal(b.cycles, i);
    }
  }
}
