/** Absolute counters of the node become deltas of the books, through restarts, gaps and decreases. One direction
    follows the same rules as the other; both share the boot epoch. */
module Metering {
  import opened Domain
  import opened Calendar
  import opened Ledger

  datatype Direction = Uplink | Downlink

  /** A counter as read: it may be missing, and it is an unsigned 64-bit value. */
  datatype Sample = Missing | Found(bytes: int)

  /** The last accepted counter, and how often its baseline was re-established. */
  datatype DirectionCursor = DirectionCursor(counter: Option<int>, epoch: int)

  datatype Delta = Delta(bytes: int, cursor: DirectionCursor, missing: bool)

  function ApplySample(c: DirectionCursor, sample: Sample, restart: bool): (r: Delta)
    ensures r.missing <==> sample.Missing?
    ensures c.epoch <= r.cursor.epoch <= c.epoch + 1
  {
    match sample
    case Missing => Delta(0, c, true)
    case Found(bytes) =>
      if bytes > MAX_INT64 then Delta(0, c.(epoch := c.epoch + 1), false)
      else if c.counter.None? then Delta(bytes, c.(counter := Some(bytes)), false)
      else if restart then Delta(bytes, DirectionCursor(Some(bytes), c.epoch + 1), false)
      else if bytes < c.counter.value then Delta(0, DirectionCursor(Some(bytes), c.epoch + 1), false)
      else Delta(bytes - c.counter.value, c.(counter := Some(bytes)), false)
  }

  /** A boot epoch further from the stored one than one collection interval is a restart. */
  predicate RestartConfirmed(stored: Option<int>, observed: int, known: bool, interval: int) {
    known && stored.Some? && (observed - stored.value > interval || stored.value - observed > interval)
  }

  datatype Observation = Observation(at: int, boot: int, known: bool)

  datatype Cursor = Cursor(boot: Option<int>, up: DirectionCursor, down: DirectionCursor, at: Option<int>)

  const NO_CURSOR := Cursor(None, DirectionCursor(None, 0), DirectionCursor(None, 0), None)

  /** What the collector read before the round: nothing of it is re-read when the round is committed. */
  datatype Target = Target(cursor: Cursor, total: Bytes, accounted: Bytes, offset: int)

  datatype Update = Update(cursor: Cursor, delta: Bytes, day: int)

  /** A delta that would overflow the lifetime total or the cycle's accounted bytes is dropped. */
  function Guarded(total: int, accounted: int, delta: int): int {
    var kept := if AddBytes(total, delta).None? then 0 else delta;
    if AddBytes(accounted, kept).None? then 0 else kept
  }

  /** Boot epochs are stored in whole seconds. */
  function WholeSeconds(t: int): int { t - t % 1000 }

  /** None: a late or reordered response, dropped as a whole. */
  function BuildUpdate(t: Target, up: Sample, down: Sample, o: Observation, interval: int): Option<Update> {
    if t.cursor.at.Some? && o.at < t.cursor.at.value then None
    else
      var restart := RestartConfirmed(t.cursor.boot, o.boot, o.known, interval);
      var uplink := ApplySample(t.cursor.up, up, restart);
      var downlink := ApplySample(t.cursor.down, down, restart);
      var boot := if o.known && (!uplink.missing || !downlink.missing) then Some(WholeSeconds(o.boot)) else t.cursor.boot;
      Some(Update(Cursor(boot, uplink.cursor, downlink.cursor, Some(o.at)),
                  Bytes(Guarded(t.total.up, t.accounted.up, uplink.bytes), Guarded(t.total.down, t.accounted.down, downlink.bytes)),
                  DayStart(o.at, t.offset)))
  }

  /** Once the lifetime total has room, the second guard has nothing to do: it never fires. */
  lemma OnlyTheTotalGuards(total: int, accounted: int, delta: int)
    requires 0 <= accounted <= total <= MAX_INT64 && 0 <= delta
    ensures Guarded(total, accounted, delta) == if total + delta <= MAX_INT64 then delta else 0
  {
  }

  // ---- what the node really counted ----

  /** One look at the node: which boot it is in, the true counters, and which of them the query finds. */
  datatype Reading = Reading(at: int, boot: nat, epoch: int, known: bool, up: int, down: int, upFound: bool, downFound: bool)

  function Counter(r: Reading, d: Direction): int { if d == Uplink then r.up else r.down }

  function Shown(r: Reading, d: Direction): Sample {
    if d == Uplink then if r.upFound then Found(r.up) else Missing
    else if r.downFound then Found(r.down) else Missing
  }

  function Seen(r: Reading): Observation { Observation(r.at, r.epoch, r.known) }

  ghost predicate Ordered(r: Reading, s: Reading) {
    && r.at < s.at && r.boot <= s.boot
    && (r.boot == s.boot ==> r.up <= s.up && r.down <= s.down && -1000 <= s.epoch - r.epoch <= 1000)
  }

  /** Counters start at zero in each boot and never decrease in it; one boot's epochs are at most a second apart. */
  ghost predicate HistoryOk(h: seq<Reading>) {
    && (forall i :: 0 <= i < |h| ==> h[i].up >= 0 && h[i].down >= 0 && h[i].epoch % 1000 == 0)
    && (forall i, j :: 0 <= i < j < |h| ==> Ordered(h[i], h[j]))
  }

  /** The bytes the node has counted, over all its boots, up to reading n (exclusive of what a boot counted after
      its last reading). */
  function NodeTotal(h: seq<Reading>, d: Direction, n: int): int
    requires n < |h|
    decreases n
  {
    if n < 0 then 0
    else if n > 0 && h[n - 1].boot == h[n].boot
    then NodeTotal(h, d, n - 1) + Counter(h[n], d) - Counter(h[n - 1], d)
    else NodeTotal(h, d, n - 1) + Counter(h[n], d)
  }

  lemma {:induction false} NodeGains(h: seq<Reading>, d: Direction, k: nat, n: nat)
    requires HistoryOk(h) && k <= n < |h|
    ensures h[k].boot == h[n].boot ==> NodeTotal(h, d, n) == NodeTotal(h, d, k) + Counter(h[n], d) - Counter(h[k], d)
    ensures h[k].boot != h[n].boot ==> NodeTotal(h, d, n) >= NodeTotal(h, d, k) + Counter(h[n], d)
    ensures NodeTotal(h, d, n) >= NodeTotal(h, d, k)
    decreases n
  {
    if k < n {
      assert Ordered(h[n - 1], h[n]) && Ordered(h[k], h[n]);
      NodeGains(h, d, k, n - 1);
      assert h[k].boot == h[n].boot ==> h[k].boot == h[n - 1].boot by {
        if k < n - 1 { assert Ordered(h[k], h[n - 1]); }
      }
    }
  }

  lemma {:induction false} NodeCounts(h: seq<Reading>, d: Direction, n: nat)
    requires HistoryOk(h) && n < |h|
    ensures NodeTotal(h, d, n) >= Counter(h[n], d) >= 0
    decreases n
  {
    if n > 0 {
      NodeCounts(h, d, n - 1);
      assert Ordered(h[n - 1], h[n]);
    }
  }

  // ---- one committed sample against the truth ----

  /** The delta taken when reading n meets a counter accepted at reading k. */
  function DeltaOf(h: seq<Reading>, d: Direction, k: int, n: nat, restart: bool): int
    requires k < |h| && n < |h|
  {
    ApplySample(DirectionCursor(if k < 0 then None else Some(Counter(h[k], d)), 0), Found(Counter(h[n], d)), restart).bytes
  }

  /** A sample taken after books that were exact pushes them past the truth exactly when a restart is confirmed
      inside one boot that had already counted something. */
  lemma OvercountsExactlyWhen(h: seq<Reading>, d: Direction, k: int, n: nat, restart: bool)
    requires HistoryOk(h) && k <= n < |h| && Counter(h[n], d) <= MAX_INT64
    ensures (if k < 0 then 0 else NodeTotal(h, d, k)) + DeltaOf(h, d, k, n, restart) > NodeTotal(h, d, n) <==>
            restart && k >= 0 && h[k].boot == h[n].boot && Counter(h[k], d) > 0
  {
    NodeCounts(h, d, n);
    if 0 <= k {
      NodeGains(h, d, k, n);
      assert k < n ==> Ordered(h[k], h[n]);
    }
  }

  /** With an interval of at least a second, whole-second epochs at most a second apart confirm nothing. */
  lemma OneBootConfirmsNothing(h: seq<Reading>, m: nat, n: nat, interval: int)
    requires HistoryOk(h) && m <= n < |h| && h[m].boot == h[n].boot && interval >= 1000
    ensures !RestartConfirmed(Some(WholeSeconds(h[m].epoch)), h[n].epoch, h[n].known, interval)
  {
    assert m < n ==> Ordered(h[m], h[n]);
  }

  // ---- a cursor's past ----

  /** Which readings a cursor's fields come from; -1 for a field never set. */
  datatype Marks = Marks(at: int, boot: int, up: int, down: int)

  const NO_MARKS := Marks(-1, -1, -1, -1)

  function Mark(m: Marks, d: Direction): int { if d == Uplink then m.up else m.down }

  function Stored(h: seq<Reading>, m: Marks): Option<int> { if 0 <= m.boot < |h| then Some(h[m.boot].epoch) else None }

  ghost predicate MarksIn(h: seq<Reading>, m: Marks) {
    -1 <= m.boot <= m.at < |h| && -1 <= m.up <= m.at && -1 <= m.down <= m.at
  }

  ghost predicate DirectionOk(h: seq<Reading>, d: Direction, c: DirectionCursor, recorded: int, k: int) {
    && -1 <= k < |h|
    && c.counter == (if k < 0 then None else Some(Counter(h[k], d)))
    && 0 <= recorded <= NodeTotal(h, d, k)
  }

  ghost predicate CursorOk(h: seq<Reading>, c: Cursor, total: Bytes, m: Marks) {
    && MarksIn(h, m)
    && c.at == (if m.at < 0 then None else Some(h[m.at].at))
    && c.boot == Stored(h, m)
    && DirectionOk(h, Uplink, c.up, total.up, m.up)
    && DirectionOk(h, Downlink, c.down, total.down, m.down)
  }

  function MoveMark(r: Reading, d: Direction, k: int, n: int): (moved: int)
    ensures moved == k || moved == n
  {
    match Shown(r, d)
    case Missing => k
    case Found(bytes) => if bytes > MAX_INT64 then k else n
  }

  function MoveMarks(h: seq<Reading>, m: Marks, n: nat): Marks
    requires n < |h|
  {
    Marks(n, if h[n].known && (h[n].upFound || h[n].downFound) then n else m.boot,
          MoveMark(h[n], Uplink, m.up, n), MoveMark(h[n], Downlink, m.down, n))
  }

  /** A reading that confirms a restart inside the very boot its counter was last read in. */
  predicate Reconfirms(h: seq<Reading>, m: Marks, n: nat, d: Direction, interval: int)
    requires n < |h|
  {
    && Shown(h[n], d).Found? && 0 <= Mark(m, d) < |h| && h[Mark(m, d)].boot == h[n].boot
    && RestartConfirmed(Stored(h, m), h[n].epoch, h[n].known, interval)
  }

  /** It does harm only to a counter that had counted something. */
  predicate Doubles(h: seq<Reading>, m: Marks, n: nat, d: Direction, interval: int)
    requires n < |h|
  {
    Reconfirms(h, m, n, d, interval) && Counter(h[Mark(m, d)], d) > 0 && Counter(h[n], d) <= MAX_INT64
  }

  lemma DirectionNeverOvercounts(h: seq<Reading>, d: Direction, c: DirectionCursor, recorded: int, accounted: int,
                                 k: int, restart: bool, n: nat)
    requires HistoryOk(h) && k <= n < |h| && DirectionOk(h, d, c, recorded, k) && recorded <= MAX_INT64
    requires restart && Shown(h[n], d).Found? && k >= 0 && h[k].boot == h[n].boot && Counter(h[n], d) <= MAX_INT64 ==>
               Counter(h[k], d) == 0
    ensures var r := ApplySample(c, Shown(h[n], d), restart);
            var after := recorded + Guarded(recorded, accounted, r.bytes);
            && r.bytes >= 0 && recorded <= after <= MAX_INT64
            && DirectionOk(h, d, r.cursor, after, MoveMark(h[n], d, k, n))
  {
    NodeCounts(h, d, n);
    if k >= 0 {
      NodeGains(h, d, k, n);
      NodeCounts(h, d, k);
    }
  }

  /** Whatever a round delivers, in whatever order, complete, partial or late, with epochs known or not and at any
      interval: committing it keeps the recorded lifetime bytes within what the node counted, unless it confirms a
      restart inside a boot that was already being counted. */
  lemma RoundNeverOvercounts(h: seq<Reading>, t: Target, m: Marks, n: nat, interval: int)
    requires HistoryOk(h) && n < |h| && CursorOk(h, t.cursor, t.total, m) && t.total.Fits()
    requires m.at <= n ==> !Doubles(h, m, n, Uplink, interval) && !Doubles(h, m, n, Downlink, interval)
    ensures var u := BuildUpdate(t, Shown(h[n], Uplink), Shown(h[n], Downlink), Seen(h[n]), interval);
            && (u.Some? <==> m.at <= n)
            && (u.Some? ==> CursorOk(h, u.value.cursor, t.total.Plus(u.value.delta), MoveMarks(h, m, n)))
  {
    hide HistoryOk, RestartConfirmed, ApplySample, NodeTotal, Guarded, DirectionOk, WholeSeconds, MoveMark, DayStart;
    TimesAndEpochs(h, m.at, n);
    if m.at <= n {
      var restart := RestartConfirmed(t.cursor.boot, h[n].epoch, h[n].known, interval);
      ZeroOrMore(h, m);
      DirectionNeverOvercounts(h, Uplink, t.cursor.up, t.total.up, t.accounted.up, m.up, restart, n);
      DirectionNeverOvercounts(h, Downlink, t.cursor.down, t.total.down, t.accounted.down, m.down, restart, n);
    }
  }

  lemma TimesAndEpochs(h: seq<Reading>, at: int, n: nat)
    requires HistoryOk(h) && at < |h| && n < |h|
    ensures WholeSeconds(h[n].epoch) == h[n].epoch
    ensures 0 <= at ==> (h[n].at < h[at].at <==> n < at)
  {
    if 0 <= at {
      assert at < n ==> Ordered(h[at], h[n]);
      assert n < at ==> Ordered(h[n], h[at]);
    }
  }

  lemma ZeroOrMore(h: seq<Reading>, m: Marks)
    requires HistoryOk(h) && MarksIn(h, m)
    ensures 0 <= m.up ==> Counter(h[m.up], Uplink) >= 0
    ensures 0 <= m.down ==> Counter(h[m.down], Downlink) >= 0
  {
  }

  /** Whatever is read, an update never takes bytes away nor pushes the lifetime total past int64. */
  lemma UpdateIsSound(t: Target, up: Sample, down: Sample, o: Observation, interval: int)
    requires t.total.Fits() && (up.Found? ==> up.bytes >= 0) && (down.Found? ==> down.bytes >= 0)
    ensures var u := BuildUpdate(t, up, down, o, interval);
            u.Some? ==> u.value.delta.Counts() && t.total.Plus(u.value.delta).Fits()
  {
    hide DayStart, RestartConfirmed;
  }

  // ---- which rounds are to be trusted ----

  /** The stored epoch and the counters are of one boot, or the counters are older. */
  ghost predicate MarksOk(h: seq<Reading>, m: Marks) {
    && MarksIn(h, m)
    && (m.boot >= 0 ==>
          && (m.up > m.boot ==> h[m.up].boot == h[m.boot].boot)
          && (m.down > m.boot ==> h[m.down].boot == h[m.boot].boot))
  }

  /** A reading may come without an epoch as long as it does not fall between a restart and the first known epoch of
      the new boot. */
  predicate Trusted(h: seq<Reading>, m: Marks, n: nat)
    requires n < |h|
  {
    h[n].known || !(0 <= m.boot < |h|) || h[m.boot].boot == h[n].boot
  }

  lemma TrustedKeepsMarks(h: seq<Reading>, m: Marks, n: nat)
    requires HistoryOk(h) && MarksOk(h, m) && m.at <= n < |h| && Trusted(h, m, n)
    ensures MarksOk(h, MoveMarks(h, m, n))
  {
  }

  /** With an interval of at least a second, trusted rounds never confirm a restart inside a boot already counted. */
  lemma TrustedNeverReconfirms(h: seq<Reading>, m: Marks, n: nat, d: Direction, interval: int)
    requires HistoryOk(h) && MarksOk(h, m) && m.at <= n < |h| && interval >= 1000
    ensures !Reconfirms(h, m, n, d, interval)
  {
    var k := Mark(m, d);
    if 0 <= k && 0 <= m.boot {
      assert k < m.boot ==> Ordered(h[k], h[m.boot]);
      assert m.boot < n ==> Ordered(h[m.boot], h[n]);
      if h[m.boot].boot == h[n].boot {
        assert WholeSeconds(h[m.boot].epoch) == h[m.boot].epoch;
        OneBootConfirmsNothing(h, m.boot, n, interval);
      }
    }
  }

  // ---- nothing lost either ----

  /** A committed round: the reading it delivered, and the accounted bytes of the cycle open at its snapshot. */
  datatype Round = Round(reading: nat, accounted: Bytes)

  predicate RoundsIn(h: seq<Reading>, rounds: seq<Round>) {
    forall i :: 0 <= i < |rounds| ==> rounds[i].reading < |h|
  }

  /** The cursor and the lifetime total after a run of committed rounds. */
  function Meter(h: seq<Reading>, rounds: seq<Round>, interval: int): (Cursor, Bytes)
    requires RoundsIn(h, rounds)
  {
    if rounds == [] then (NO_CURSOR, ZERO)
    else
      CommitRound(h, Meter(h, rounds[..|rounds| - 1], interval), rounds[|rounds| - 1], interval)
  }

  function CommitRound(h: seq<Reading>, before: (Cursor, Bytes), round: Round, interval: int): (Cursor, Bytes)
    requires round.reading < |h|
  {
    var (cursor, total) := before;
    var r := h[round.reading];
    match BuildUpdate(Target(cursor, total, round.accounted, 0), Shown(r, Uplink), Shown(r, Downlink), Seen(r), interval)
    case None => before
    case Some(u) => (u.cursor, total.Plus(u.delta))
  }

  predicate LastOfBoot(h: seq<Reading>, rounds: seq<Round>, i: nat)
    requires RoundsIn(h, rounds) && i < |rounds|
  {
    i == |rounds| - 1 || h[rounds[i].reading].boot != h[rounds[i + 1].reading].boot
  }

  /** The sum, over the boots observed by the first n rounds of a run, of the last value observed in each. */
  function ObservedUpTo(h: seq<Reading>, d: Direction, rounds: seq<Round>, n: nat): int
    requires RoundsIn(h, rounds) && n <= |rounds|
  {
    if n == 0 then 0
    else ObservedUpTo(h, d, rounds, n - 1) + if LastOfBoot(h, rounds, n - 1) then Counter(h[rounds[n - 1].reading], d) else 0
  }

  function Observed(h: seq<Reading>, d: Direction, rounds: seq<Round>): int
    requires RoundsIn(h, rounds)
  {
    ObservedUpTo(h, d, rounds, |rounds|)
  }

  lemma {:induction false} ObservedPrefix(h: seq<Reading>, d: Direction, rounds: seq<Round>, n: nat)
    requires RoundsIn(h, rounds) && n + 1 < |rounds|
    ensures ObservedUpTo(h, d, rounds, n) == ObservedUpTo(h, d, rounds[..|rounds| - 1], n)
  {
    if n > 0 { ObservedPrefix(h, d, rounds, n - 1); }
  }

  lemma ObservedStep(h: seq<Reading>, d: Direction, rounds: seq<Round>)
    requires RoundsIn(h, rounds) && |rounds| > 1
    ensures var r, s := h[rounds[|rounds| - 2].reading], h[rounds[|rounds| - 1].reading];
            Observed(h, d, rounds) ==
            Observed(h, d, rounds[..|rounds| - 1]) + Counter(s, d) - if r.boot == s.boot then Counter(r, d) else 0
  {
    var n := |rounds|;
    ObservedPrefix(h, d, rounds, n - 2);
    assert ObservedUpTo(h, d, rounds, n) == ObservedUpTo(h, d, rounds, n - 1) + Counter(h[rounds[n - 1].reading], d);
    var front := rounds[..n - 1];
    assert Observed(h, d, front) == ObservedUpTo(h, d, front, n - 2) + Counter(h[front[n - 2].reading], d);
  }

  /** A found sample between two readings of an unbroken run, with room in the books. */
  lemma ExactDelta(h: seq<Reading>, d: Direction, c: DirectionCursor, recorded: int, accounted: int, k: nat, n: nat, interval: int)
    requires HistoryOk(h) && k < n < |h| && h[n].known && interval >= 1000 && Shown(h[n], d).Found?
    requires h[k].boot != h[n].boot ==> RestartConfirmed(Some(h[k].epoch), h[n].epoch, true, interval)
    requires c.counter == Some(Counter(h[k], d)) && 0 <= accounted <= recorded
    requires Counter(h[n], d) <= MAX_INT64
    requires recorded + Counter(h[n], d) - (if h[k].boot == h[n].boot then Counter(h[k], d) else 0) <= MAX_INT64
    ensures var r := ApplySample(c, Shown(h[n], d), RestartConfirmed(Some(h[k].epoch), h[n].epoch, true, interval));
            && r.cursor.counter == Some(Counter(h[n], d))
            && Guarded(recorded, accounted, r.bytes) == r.bytes
            && r.bytes == Counter(h[n], d) - (if h[k].boot == h[n].boot then Counter(h[k], d) else 0)
            && r.bytes >= 0
  {
    assert Ordered(h[k], h[n]);
    assert WholeSeconds(h[k].epoch) == h[k].epoch;
    if h[k].boot == h[n].boot { OneBootConfirmsNothing(h, k, n, interval); }
  }

  /** Every round finds both counters, in order, and every change of boot between two rounds is confirmed. */
  ghost predicate Unbroken(h: seq<Reading>, rounds: seq<Round>, interval: int)
    requires RoundsIn(h, rounds)
  {
    && (forall i :: 0 <= i < |rounds| ==>
          var r := h[rounds[i].reading];
          r.upFound && r.downFound && r.known && r.up <= MAX_INT64 && r.down <= MAX_INT64)
    && (forall i :: 0 < i < |rounds| ==>
          var r, s := h[rounds[i - 1].reading], h[rounds[i].reading];
          && rounds[i - 1].reading < rounds[i].reading
          && (r.boot != s.boot ==> RestartConfirmed(Some(r.epoch), s.epoch, true, interval)))
  }

  /** The snapshots were of these books: a cycle has accounted for no more than the lifetime total. */
  ghost predicate SnapshotsFit(h: seq<Reading>, rounds: seq<Round>)
    requires RoundsIn(h, rounds)
  {
    forall i :: 0 <= i < |rounds| ==>
      && 0 <= rounds[i].accounted.up <= Observed(h, Uplink, rounds[..i])
      && 0 <= rounds[i].accounted.down <= Observed(h, Downlink, rounds[..i])
  }

  lemma FrontOfUnbroken(h: seq<Reading>, rounds: seq<Round>, interval: int)
    requires RoundsIn(h, rounds) && Unbroken(h, rounds, interval) && SnapshotsFit(h, rounds) && rounds != []
    ensures var front := rounds[..|rounds| - 1]; Unbroken(h, front, interval) && SnapshotsFit(h, front)
  {
    hide RestartConfirmed, Observed;
    var front := rounds[..|rounds| - 1];
    forall i | 0 <= i < |front|
      ensures 0 <= front[i].accounted.up <= Observed(h, Uplink, front[..i])
      ensures 0 <= front[i].accounted.down <= Observed(h, Downlink, front[..i])
    {
      assert front[..i] == rounds[..i];
    }
  }

  /** What an unbroken run leaves behind. */
  ghost predicate Exact(h: seq<Reading>, rounds: seq<Round>, cursor: Cursor, total: Bytes)
    requires RoundsIn(h, rounds)
  {
    && total == Bytes(Observed(h, Uplink, rounds), Observed(h, Downlink, rounds)) && total.Counts()
    && (rounds == [] ==> cursor == NO_CURSOR)
    && (rounds != [] ==>
          var r := h[rounds[|rounds| - 1].reading];
          cursor.boot == Some(r.epoch) && cursor.at == Some(r.at) &&
          cursor.up.counter == Some(r.up) && cursor.down.counter == Some(r.down))
  }

  lemma FirstRound(h: seq<Reading>, rounds: seq<Round>, interval: int)
    requires HistoryOk(h) && RoundsIn(h, rounds) && Unbroken(h, rounds, interval) && SnapshotsFit(h, rounds) && |rounds| == 1
    ensures Exact(h, rounds, Meter(h, rounds, interval).0, Meter(h, rounds, interval).1)
  {
    hide DayStart;
    var r, a := h[rounds[0].reading], rounds[0].accounted;
    assert rounds[..0] == [];
    assert Meter(h, rounds[..0], interval) == (NO_CURSOR, ZERO);
    assert a == ZERO;
    assert ObservedUpTo(h, Uplink, rounds, 0) == 0 == ObservedUpTo(h, Downlink, rounds, 0);
    assert Observed(h, Uplink, rounds) == r.up && Observed(h, Downlink, rounds) == r.down;
    assert WholeSeconds(r.epoch) == r.epoch;
    hide HistoryOk, SnapshotsFit, Observed, ObservedUpTo, WholeSeconds, LastOfBoot;
    assert Meter(h, rounds, interval) == CommitRound(h, (NO_CURSOR, ZERO), rounds[0], interval);
  }

  lemma NextRound(h: seq<Reading>, rounds: seq<Round>, interval: int)
    requires HistoryOk(h) && RoundsIn(h, rounds) && Unbroken(h, rounds, interval) && SnapshotsFit(h, rounds) && interval >= 1000
    requires |rounds| > 1
    requires Observed(h, Uplink, rounds) <= MAX_INT64 && Observed(h, Downlink, rounds) <= MAX_INT64
    requires var front := rounds[..|rounds| - 1]; Exact(h, front, Meter(h, front, interval).0, Meter(h, front, interval).1)
    ensures Exact(h, rounds, Meter(h, rounds, interval).0, Meter(h, rounds, interval).1)
  {
    var n := |rounds| - 1;
    var front := rounds[..n];
    var k, m := rounds[n - 1].reading, rounds[n].reading;
    assert Ordered(h[k], h[m]) && WholeSeconds(h[m].epoch) == h[m].epoch;
    var (cursor, total) := Meter(h, front, interval);
    var a := rounds[n].accounted;
    assert 0 <= a.up <= Observed(h, Uplink, front) && 0 <= a.down <= Observed(h, Downlink, front);
    assert h[k].boot != h[m].boot ==> RestartConfirmed(Some(h[k].epoch), h[m].epoch, true, interval);
    ObservedStep(h, Uplink, rounds);
    ObservedStep(h, Downlink, rounds);
    hide HistoryOk, RestartConfirmed, ApplySample, Guarded, Observed, SnapshotsFit, WholeSeconds, DayStart;
    ExactDelta(h, Uplink, cursor.up, total.up, a.up, k, m, interval);
    ExactDelta(h, Downlink, cursor.down, total.down, a.down, k, m, interval);
  }

  /** In an unbroken run that stays within int64 the recorded lifetime bytes are exactly the sum, over the observed
      boots, of the last value observed in each. */
  lemma {:induction false} RecordsExactlyWhatWasObserved(h: seq<Reading>, rounds: seq<Round>, interval: int)
    requires HistoryOk(h) && RoundsIn(h, rounds) && Unbroken(h, rounds, interval) && SnapshotsFit(h, rounds) && interval >= 1000
    requires Observed(h, Uplink, rounds) <= MAX_INT64 && Observed(h, Downlink, rounds) <= MAX_INT64
    ensures Exact(h, rounds, Meter(h, rounds, interval).0, Meter(h, rounds, interval).1)
  {
    if |rounds| == 1 {
      FirstRound(h, rounds, interval);
    } else if |rounds| > 1 {
      var n := |rounds| - 1;
      assert Ordered(h[rounds[n - 1].reading], h[rounds[n].reading]);
      ObservedStep(h, Uplink, rounds);
      ObservedStep(h, Downlink, rounds);
      FrontOfUnbroken(h, rounds, interval);
      RecordsExactlyWhatWasObserved(h, rounds[..n], interval);
      NextRound(h, rounds, interval);
    }
  }

  // ---- where the rule breaks ----

  const LATE_CONFIRMATION: seq<Reading> := [
    Reading(1000, 0, 0, true, 100, 0, true, true),
    Reading(60_000, 1, 50_000, false, 150, 0, true, true),
    Reading(65_000, 1, 50_000, true, 160, 0, true, true)]

  const SAME_BOOT: seq<Reading> := [Reading(1000, 0, 0, true, 100, 0, true, true), Reading(6000, 0, 1000, true, 160, 0, true, true)]

  /** The first n readings, each committed as it came. */
  function InOrder(n: nat): (r: seq<Round>)
    ensures |r| == n && forall i :: 0 <= i < n ==> r[i] == Round(i, ZERO)
  {
    seq(n, i requires 0 <= i < n => Round(i, ZERO))
  }

  lemma MeterInOrder(h: seq<Reading>, n: nat, interval: int)
    requires n < |h|
    ensures Meter(h, InOrder(0), interval) == (NO_CURSOR, ZERO)
    ensures Meter(h, InOrder(n + 1), interval) == CommitRound(h, Meter(h, InOrder(n), interval), Round(n, ZERO), interval)
  {
    hide CommitRound;
    assert InOrder(n + 1)[..n] == InOrder(n);
  }

  lemma HistoriesAreOk()
    ensures HistoryOk(LATE_CONFIRMATION) && NodeTotal(LATE_CONFIRMATION, Uplink, 2) == 260
    ensures HistoryOk(SAME_BOOT) && NodeTotal(SAME_BOOT, Uplink, 1) == 160
  {
    var h := LATE_CONFIRMATION;
    assert NodeTotal(h, Uplink, 1) == 250;
    assert Ordered(h[0], h[1]) && Ordered(h[0], h[2]) && Ordered(h[1], h[2]);
    assert Ordered(SAME_BOOT[0], SAME_BOOT[1]);
  }

  /** One found uplink sample, spelled out. */
  lemma OneCommit(h: seq<Reading>, before: (Cursor, Bytes), n: nat, restart: bool, interval: int)
    requires n < |h| && h[n].upFound && h[n].downFound && h[n].down == 0 && 0 <= h[n].up <= 1000 && h[n].epoch % 1000 == 0
    requires before.0.at.Some? ==> before.0.at.value <= h[n].at
    requires restart <==> RestartConfirmed(before.0.boot, h[n].epoch, h[n].known, interval)
    requires 0 <= before.1.up <= 1000 && (before.0.up.counter.Some? ==> before.0.up.counter.value >= 0)
    ensures var after := CommitRound(h, before, Round(n, ZERO), interval);
            && after.0.at == Some(h[n].at) && after.0.up.counter == Some(h[n].up)
            && after.0.boot == (if h[n].known then Some(h[n].epoch) else before.0.boot)
            && after.1.up == before.1.up +
                 if before.0.up.counter.None? || restart then h[n].up
                 else if h[n].up < before.0.up.counter.value then 0 else h[n].up - before.0.up.counter.value
  {
    hide DayStart;
    assert MAX_INT64 > 2000;
  }

  /** Unknown epochs: the bytes of a new boot are taken once as a difference and once more, whole, when the restart
      is confirmed late. */
  lemma UnknownEpochCountsTwice()
    ensures HistoryOk(LATE_CONFIRMATION)
    ensures Meter(LATE_CONFIRMATION, InOrder(3), 5000).1.up >
            NodeTotal(LATE_CONFIRMATION, Uplink, 2)
  {
    var h := LATE_CONFIRMATION;
    HistoriesAreOk();
    hide CommitRound, NodeTotal, HistoryOk, Meter;
    MeterInOrder(h, 0, 5000);
    MeterInOrder(h, 1, 5000);
    MeterInOrder(h, 2, 5000);
    var first := CommitRound(h, (NO_CURSOR, ZERO), Round(0, ZERO), 5000);
    OneCommit(h, (NO_CURSOR, ZERO), 0, false, 5000);
    OneCommit(h, first, 1, false, 5000);
    OneCommit(h, CommitRound(h, first, Round(1, ZERO), 5000), 2, true, 5000);
  }

  /** An interval below a second mistakes the one-second jitter of a boot's epoch for a restart. */
  lemma ShortIntervalCountsTwice(interval: int)
    requires 0 < interval < 1000
    ensures HistoryOk(SAME_BOOT)
    ensures Meter(SAME_BOOT, InOrder(2), interval).1.up > NodeTotal(SAME_BOOT, Uplink, 1)
  {
    var h := SAME_BOOT;
    HistoriesAreOk();
    hide CommitRound, NodeTotal, HistoryOk, Meter;
    MeterInOrder(h, 0, interval);
    MeterInOrder(h, 1, interval);
    OneCommit(h, (NO_CURSOR, ZERO), 0, false, interval);
    OneCommit(h, CommitRound(h, (NO_CURSOR, ZERO), Round(0, ZERO), interval), 1, true, interval);
  }

  // ---- exactly which runs can count too much ----

  function Way(c: Cursor, d: Direction): DirectionCursor { if d == Uplink then c.up else c.down }

  function Side(b: Bytes, d: Direction): int { if d == Uplink then b.up else b.down }

  /** Where a run of rounds leaves the marks; late rounds leave none. */
  function MarksOf(h: seq<Reading>, rounds: seq<Round>): Marks
    requires RoundsIn(h, rounds)
  {
    if rounds == [] then NO_MARKS
    else
      var m, n := MarksOf(h, rounds[..|rounds| - 1]), rounds[|rounds| - 1].reading;
      if n < m.at then m else MoveMarks(h, m, n)
  }

  predicate ReconfirmsAt(h: seq<Reading>, rounds: seq<Round>, j: nat, d: Direction, interval: int)
    requires RoundsIn(h, rounds) && j < |rounds|
  {
    var m, n := MarksOf(h, rounds[..j]), rounds[j].reading;
    m.at <= n && Reconfirms(h, m, n, d, interval)
  }

  /** What can be said of a run without looking at a counter: the boots, their epochs, what was found and when. */
  ghost predicate SamePattern(h: seq<Reading>, g: seq<Reading>) {
    |h| == |g| && forall i :: 0 <= i < |h| ==> g[i] == h[i].(up := g[i].up, down := g[i].down)
  }

  ghost predicate Countable(h: seq<Reading>) {
    HistoryOk(h) && forall i :: 0 <= i < |h| ==> h[i].up <= MAX_INT64 && h[i].down <= MAX_INT64
  }

  /** Snapshots of books in which there is room for another byte. */
  predicate Modest(rounds: seq<Round>, d: Direction) {
    |rounds| < MAX_INT64 && forall i :: 0 <= i < |rounds| ==> 0 <= Side(rounds[i].accounted, d) < MAX_INT64
  }

  lemma {:induction false} SameMarks(h: seq<Reading>, g: seq<Reading>, rounds: seq<Round>)
    requires SamePattern(h, g) && Countable(h) && Countable(g) && RoundsIn(h, rounds)
    ensures RoundsIn(g, rounds) && MarksOf(h, rounds) == MarksOf(g, rounds)
  {
    if rounds != [] { SameMarks(h, g, rounds[..|rounds| - 1]); }
  }

  lemma SameReconfirmation(h: seq<Reading>, g: seq<Reading>, rounds: seq<Round>, j: nat, d: Direction, interval: int)
    requires SamePattern(h, g) && Countable(h) && Countable(g) && RoundsIn(h, rounds) && j < |rounds|
    ensures RoundsIn(g, rounds) && ReconfirmsAt(h, rounds, j, d, interval) == ReconfirmsAt(g, rounds, j, d, interval)
  {
    SameMarks(h, g, rounds[..j]);
  }

  /** One committed round, in one direction. */
  lemma CommitDirection(h: seq<Reading>, before: (Cursor, Bytes), round: Round, interval: int, d: Direction)
    requires round.reading < |h|
    ensures var r := h[round.reading];
            var after := CommitRound(h, before, round, interval);
            if before.0.at.Some? && r.at < before.0.at.value then after == before
            else
              var s := ApplySample(Way(before.0, d), Shown(r, d), RestartConfirmed(before.0.boot, r.epoch, r.known, interval));
              && Way(after.0, d) == s.cursor && after.0.at == Some(r.at)
              && after.0.boot == (if r.known && (r.upFound || r.downFound) then Some(WholeSeconds(r.epoch)) else before.0.boot)
              && Side(after.1, d) == Side(before.1, d) + Guarded(Side(before.1, d), Side(round.accounted, d), s.bytes)
  {
    hide DayStart, Guarded, RestartConfirmed, WholeSeconds;
  }

  /** The cursor is what the marks say. */
  ghost predicate Follows(h: seq<Reading>, c: Cursor, m: Marks, d: Direction) {
    && MarksIn(h, m)
    && c.at == (if m.at < 0 then None else Some(h[m.at].at)) && c.boot == Stored(h, m)
    && Way(c, d).counter == (if Mark(m, d) < 0 then None else Some(Counter(h[Mark(m, d)], d)))
  }

  /** A round that is not late is one that the marks take in. */
  lemma NotLate(h: seq<Reading>, c: Cursor, m: Marks, d: Direction, n: nat)
    requires HistoryOk(h) && Follows(h, c, m, d) && n < |h|
    ensures (c.at.Some? && h[n].at < c.at.value) <==> n < m.at
  {
    if 0 <= m.at {
      assert m.at < n ==> Ordered(h[m.at], h[n]);
      assert n < m.at ==> Ordered(h[n], h[m.at]);
    }
  }

  lemma FollowsOn(h: seq<Reading>, before: (Cursor, Bytes), m: Marks, round: Round, interval: int, d: Direction)
    requires HistoryOk(h) && round.reading < |h| && Follows(h, before.0, m, d)
    ensures Follows(h, CommitRound(h, before, round, interval).0, if round.reading < m.at then m else MoveMarks(h, m, round.reading), d)
  {
    hide CommitRound, RestartConfirmed, Guarded, WholeSeconds, HistoryOk;
    NotLate(h, before.0, m, d, round.reading);
    StoredAsIs(h, round.reading);
    CommitDirection(h, before, round, interval, d);
  }

  lemma StoredAsIs(h: seq<Reading>, n: nat)
    requires HistoryOk(h) && n < |h|
    ensures WholeSeconds(h[n].epoch) == h[n].epoch
  {
  }

  lemma {:induction false} MeterFollows(h: seq<Reading>, rounds: seq<Round>, interval: int, d: Direction)
    requires HistoryOk(h) && RoundsIn(h, rounds)
    ensures Follows(h, Meter(h, rounds, interval).0, MarksOf(h, rounds), d)
  {
    hide CommitRound, Follows, HistoryOk, MoveMarks;
    if rounds == [] {
      NothingFollows(h, d);
    } else {
      var front := rounds[..|rounds| - 1];
      MeterFollows(h, front, interval, d);
      FollowsOn(h, Meter(h, front, interval), MarksOf(h, front), rounds[|rounds| - 1], interval, d);
    }
  }

  lemma NothingFollows(h: seq<Reading>, d: Direction)
    ensures Follows(h, NO_CURSOR, NO_MARKS, d)
  {
  }

  /** A run in which no round confirms a restart inside a boot already being counted never counts too much. */
  lemma {:induction false} UnconfirmedRunsNeverOvercount(h: seq<Reading>, rounds: seq<Round>, interval: int, d: Direction)
    requires HistoryOk(h) && RoundsIn(h, rounds)
    requires forall j :: 0 <= j < |rounds| ==> !ReconfirmsAt(h, rounds, j, d, interval)
    ensures var (c, total) := Meter(h, rounds, interval);
            DirectionOk(h, d, Way(c, d), Side(total, d), Mark(MarksOf(h, rounds), d)) && Side(total, d) <= MAX_INT64
  {
    if rounds != [] {
      hide CommitRound, HistoryOk, Follows, DirectionOk, Reconfirms, MoveMarks, NodeTotal;
      var n := |rounds| - 1;
      var front, round := rounds[..n], rounds[n];
      forall j | 0 <= j < n ensures !ReconfirmsAt(h, front, j, d, interval) {
        assert front[..j] == rounds[..j];
        assert !ReconfirmsAt(h, rounds, j, d, interval);
      }
      assert !ReconfirmsAt(h, rounds, n, d, interval);
      UnconfirmedRunsNeverOvercount(h, front, interval, d);
      MeterFollows(h, front, interval, d);
      UnconfirmedStep(h, Meter(h, front, interval), MarksOf(h, front), round, interval, d);
    } else {
      assert DirectionOk(h, d, Way(NO_CURSOR, d), 0, -1);
    }
  }

  lemma UnconfirmedStep(h: seq<Reading>, before: (Cursor, Bytes), m: Marks, round: Round, interval: int, d: Direction)
    requires HistoryOk(h) && round.reading < |h| && Follows(h, before.0, m, d)
    requires DirectionOk(h, d, Way(before.0, d), Side(before.1, d), Mark(m, d)) && Side(before.1, d) <= MAX_INT64
    requires m.at <= round.reading ==> !Reconfirms(h, m, round.reading, d, interval)
    ensures var (c, total) := CommitRound(h, before, round, interval);
            var k := Mark(if round.reading < m.at then m else MoveMarks(h, m, round.reading), d);
            DirectionOk(h, d, Way(c, d), Side(total, d), k) && Side(total, d) <= MAX_INT64
  {
    hide CommitRound, RestartConfirmed, Guarded, WholeSeconds, HistoryOk, NodeTotal, ApplySample;
    NotLate(h, before.0, m, d, round.reading);
    CommitDirection(h, before, round, interval, d);
    if m.at <= round.reading {
      var restart := RestartConfirmed(before.0.boot, h[round.reading].epoch, h[round.reading].known, interval);
      DirectionNeverOvercounts(h, d, Way(before.0, d), Side(before.1, d), Side(round.accounted, d), Mark(m, d), restart, round.reading);
    }
  }

  // A history that shows it: one byte counted, in the boot in question only.

  function Bit(boot: nat, at: nat): int { if boot == at then 1 else 0 }

  function Light(h: seq<Reading>, boot: nat): (g: seq<Reading>)
    ensures |g| == |h| && forall i :: 0 <= i < |h| ==> g[i] == h[i].(up := Bit(boot, h[i].boot), down := Bit(boot, h[i].boot))
  {
    seq(|h|, i requires 0 <= i < |h| => h[i].(up := Bit(boot, h[i].boot), down := Bit(boot, h[i].boot)))
  }

  lemma LightIsCountable(h: seq<Reading>, boot: nat)
    requires HistoryOk(h)
    ensures SamePattern(h, Light(h, boot)) && Countable(Light(h, boot))
  {
    var g := Light(h, boot);
    forall i, j | 0 <= i < j < |g| ensures Ordered(g[i], g[j]) { assert Ordered(h[i], h[j]); }
  }

  lemma {:induction false} LightTotal(h: seq<Reading>, boot: nat, d: Direction, n: nat)
    requires HistoryOk(h) && n < |h|
    ensures var total := NodeTotal(Light(h, boot), d, n);
            && 0 <= total <= 1
            && (h[n].boot < boot ==> total == 0)
            && (h[n].boot == boot ==> total == 1)
    decreases n
  {
    if n > 0 {
      LightTotal(h, boot, d, n - 1);
      assert Ordered(h[n - 1], h[n]);
    }
  }

  /** What a run records of that byte: once for seeing it, and once more for a restart confirmed over it. */
  ghost predicate Lit(g: seq<Reading>, boot: nat, rounds: seq<Round>, interval: int, d: Direction)
    requires RoundsIn(g, rounds)
  {
    var total, k := Side(Meter(g, rounds, interval).1, d), Mark(MarksOf(g, rounds), d);
    && 0 <= total <= |rounds| && k < |g|
    && (k >= 0 && g[k].boot == boot ==> total >= 1)
    && (forall j :: 0 <= j < |rounds| && ReconfirmsAt(g, rounds, j, d, interval) && g[rounds[j].reading].boot == boot ==> total >= 2)
  }

  lemma {:induction false} LightRecorded(h: seq<Reading>, boot: nat, rounds: seq<Round>, interval: int, d: Direction)
    requires HistoryOk(h) && RoundsIn(h, rounds) && Modest(rounds, d)
    ensures RoundsIn(Light(h, boot), rounds) && Lit(Light(h, boot), boot, rounds, interval, d)
  {
    if rounds != [] {
      hide CommitRound, HistoryOk, Lit;
      LightRecorded(h, boot, rounds[..|rounds| - 1], interval, d);
      LightExtends(h, boot, rounds, interval, d);
    }
  }

  lemma LightExtends(h: seq<Reading>, boot: nat, rounds: seq<Round>, interval: int, d: Direction)
    requires HistoryOk(h) && RoundsIn(h, rounds) && Modest(rounds, d) && rounds != []
    requires RoundsIn(Light(h, boot), rounds) && Lit(Light(h, boot), boot, rounds[..|rounds| - 1], interval, d)
    ensures Lit(Light(h, boot), boot, rounds, interval, d)
  {
    hide CommitRound, Follows, HistoryOk, Reconfirms, MoveMarks, Light, Bit;
    var n := |rounds| - 1;
    var g, front := Light(h, boot), rounds[..n];
    LightIsHistory(h, boot);
    MeterFollows(g, front, interval, d);
    LightStep(h, boot, Meter(g, front, interval), MarksOf(g, front), rounds[n], interval, d);
    LitExtends(g, boot, rounds, interval, d);
  }

  lemma LitExtends(g: seq<Reading>, boot: nat, rounds: seq<Round>, interval: int, d: Direction)
    requires RoundsIn(g, rounds) && rounds != [] && Lit(g, boot, rounds[..|rounds| - 1], interval, d)
    requires var n := |rounds| - 1;
             var was, total := Side(Meter(g, rounds[..n], interval).1, d), Side(Meter(g, rounds, interval).1, d);
             var k := Mark(MarksOf(g, rounds), d);
             && was <= total <= was + 1 && k < |g| && (k >= 0 && g[k].boot == boot ==> total >= 1)
             && (ReconfirmsAt(g, rounds, n, d, interval) && g[rounds[n].reading].boot == boot ==> total >= 2)
    ensures Lit(g, boot, rounds, interval, d)
  {
    hide Meter, MarksOf, ReconfirmsAt;
    var n := |rounds| - 1;
    forall j | 0 <= j < n && ReconfirmsAt(g, rounds, j, d, interval) ensures ReconfirmsAt(g, rounds[..n], j, d, interval) {
      EarlierReconfirmation(g, rounds, j, d, interval);
    }
  }

  /** Whether a round confirms a restart does not depend on the rounds after it. */
  lemma EarlierReconfirmation(g: seq<Reading>, rounds: seq<Round>, j: nat, d: Direction, interval: int)
    requires RoundsIn(g, rounds) && j < |rounds| - 1
    ensures ReconfirmsAt(g, rounds, j, d, interval) == ReconfirmsAt(g, rounds[..|rounds| - 1], j, d, interval)
  {
    hide Reconfirms, MarksOf;
    assert rounds[..|rounds| - 1][..j] == rounds[..j];
  }

  lemma LightIsHistory(h: seq<Reading>, boot: nat)
    requires HistoryOk(h)
    ensures HistoryOk(Light(h, boot))
  {
    LightIsCountable(h, boot);
  }

  lemma LightStep(h: seq<Reading>, boot: nat, before: (Cursor, Bytes), m: Marks, round: Round, interval: int, d: Direction)
    requires HistoryOk(h) && HistoryOk(Light(h, boot)) && round.reading < |h| && Follows(Light(h, boot), before.0, m, d)
    requires 0 <= Side(before.1, d) < MAX_INT64 - 1 && 0 <= Side(round.accounted, d) < MAX_INT64
    requires Mark(m, d) >= 0 && h[Mark(m, d)].boot == boot ==> Side(before.1, d) >= 1
    ensures var g, n := Light(h, boot), round.reading;
            var was, total := Side(before.1, d), Side(CommitRound(g, before, round, interval).1, d);
            var m' := if n < m.at then m else MoveMarks(g, m, n);
            && was <= total <= was + 1 && Mark(m', d) < |g|
            && (Mark(m', d) >= 0 && g[Mark(m', d)].boot == boot ==> total >= 1)
            && (m.at <= n && Reconfirms(g, m, n, d, interval) && g[n].boot == boot ==> total >= 2)
  {
    var g, n := Light(h, boot), round.reading;
    assert 0 <= Mark(m, d) < n ==> Ordered(g[Mark(m, d)], g[n]);
    hide CommitRound, RestartConfirmed, WholeSeconds, HistoryOk;
    NotLate(g, before.0, m, d, n);
    CommitDirection(g, before, round, interval, d);
  }

  /** Over a whole run, whatever the epochs and the interval: some counters make it record more than the node counted
      if and only if some round confirms a restart inside the boot in which its counter was last read. */
  lemma RunOvercountsExactlyWhen(h: seq<Reading>, rounds: seq<Round>, interval: int, d: Direction)
    requires Countable(h) && RoundsIn(h, rounds) && Modest(rounds, d)
    ensures (exists j :: 0 <= j < |rounds| && ReconfirmsAt(h, rounds, j, d, interval)) <==>
            (exists g :: SamePattern(h, g) && Countable(g) && RoundsIn(g, rounds) &&
                         Side(Meter(g, rounds, interval).1, d) > NodeTotal(g, d, |g| - 1))
  {
    hide HistoryOk, Meter, NodeTotal, ReconfirmsAt, SamePattern, Countable, MarksOf, Light;
    if j: nat :| j < |rounds| && ReconfirmsAt(h, rounds, j, d, interval) {
      LightOvercounts(h, rounds, j, interval, d);
    } else {
      forall g | SamePattern(h, g) && Countable(g) && RoundsIn(g, rounds)
        ensures Side(Meter(g, rounds, interval).1, d) <= NodeTotal(g, d, |g| - 1)
      {
        OthersStayWithin(h, g, rounds, interval, d);
      }
    }
  }

  lemma LightOvercounts(h: seq<Reading>, rounds: seq<Round>, j: nat, interval: int, d: Direction)
    requires Countable(h) && RoundsIn(h, rounds) && Modest(rounds, d) && j < |rounds| && ReconfirmsAt(h, rounds, j, d, interval)
    ensures var g := Light(h, h[rounds[j].reading].boot);
            && SamePattern(h, g) && Countable(g) && RoundsIn(g, rounds)
            && Side(Meter(g, rounds, interval).1, d) > NodeTotal(g, d, |g| - 1)
  {
    hide HistoryOk, Meter, NodeTotal, ReconfirmsAt, SamePattern, MarksOf;
    var boot := h[rounds[j].reading].boot;
    LightIsCountable(h, boot);
    SameReconfirmation(h, Light(h, boot), rounds, j, d, interval);
    LightRecorded(h, boot, rounds, interval, d);
    LightTotal(h, boot, d, |h| - 1);
  }

  lemma OthersStayWithin(h: seq<Reading>, g: seq<Reading>, rounds: seq<Round>, interval: int, d: Direction)
    requires Countable(h) && RoundsIn(h, rounds) && SamePattern(h, g) && Countable(g)
    requires forall j :: 0 <= j < |rounds| ==> !ReconfirmsAt(h, rounds, j, d, interval)
    ensures RoundsIn(g, rounds) && Side(Meter(g, rounds, interval).1, d) <= NodeTotal(g, d, |g| - 1)
  {
    hide HistoryOk, Meter, NodeTotal, ReconfirmsAt, MarksOf;
    forall j | 0 <= j < |rounds| ensures !ReconfirmsAt(g, rounds, j, d, interval) {
      SameReconfirmation(h, g, rounds, j, d, interval);
    }
    UnconfirmedRunsNeverOvercount(g, rounds, interval, d);
    NodeTotalFrom(g, d, Mark(MarksOf(g, rounds), d));
  }

  /** A run whose unknown epochs never fall between a restart and the new boot's first known one. */
  predicate AllTrusted(h: seq<Reading>, rounds: seq<Round>)
    requires RoundsIn(h, rounds)
  {
    forall j :: 0 <= j < |rounds| ==>
      var m := MarksOf(h, rounds[..j]);
      m.at <= rounds[j].reading ==> Trusted(h, m, rounds[j].reading)
  }

  lemma {:induction false} TrustedRunsKeepMarks(h: seq<Reading>, rounds: seq<Round>)
    requires HistoryOk(h) && RoundsIn(h, rounds) && AllTrusted(h, rounds)
    ensures MarksOk(h, MarksOf(h, rounds))
  {
    if rounds != [] {
      var n := |rounds| - 1;
      var front := rounds[..n];
      assert forall j :: 0 <= j < n ==> front[..j] == rounds[..j];
      TrustedRunsKeepMarks(h, front);
      var m := MarksOf(h, front);
      if m.at <= rounds[n].reading { TrustedKeepsMarks(h, m, rounds[n].reading); }
    }
  }

  /** Such runs are safe at every interval of at least a second, whatever is missing, late or unknown. */
  lemma TrustedRunsNeverOvercount(h: seq<Reading>, rounds: seq<Round>, interval: int, d: Direction)
    requires HistoryOk(h) && RoundsIn(h, rounds) && AllTrusted(h, rounds) && interval >= 1000
    ensures Side(Meter(h, rounds, interval).1, d) <= NodeTotal(h, d, |h| - 1)
  {
    forall j | 0 <= j < |rounds| ensures !ReconfirmsAt(h, rounds, j, d, interval) {
      var front := rounds[..j];
      assert forall i :: 0 <= i < j ==> front[..i] == rounds[..i];
      TrustedRunsKeepMarks(h, front);
      var m := MarksOf(h, front);
      if m.at <= rounds[j].reading { TrustedNeverReconfirms(h, m, rounds[j].reading, d, interval); }
    }
    UnconfirmedRunsNeverOvercount(h, rounds, interval, d);
    NodeTotalFrom(h, d, Mark(MarksOf(h, rounds), d));
  }

  lemma NodeTotalFrom(h: seq<Reading>, d: Direction, k: int)
    requires HistoryOk(h) && k < |h|
    ensures NodeTotal(h, d, k) <= NodeTotal(h, d, |h| - 1)
  {
    if k >= 0 { NodeGains(h, d, k, |h| - 1); }
    else if |h| > 0 { NodeCounts(h, d, |h| - 1); }
  }
}
