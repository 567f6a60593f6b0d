/** The lifetime bytes of whole runs: every interleaving records what the rounds it committed amount to, and nothing is
    lost where those rounds are unbroken. */
module Traffic {
  import opened Domain
  import opened Calendar
  import Intent
  import opened Ledger
  import opened Metering
  import opened Quota
  import opened System

  /** The rounds a collector's step writes: none, or the reading it took in with the snapshot it was taken against. */
  function Committed(h: seq<Reading>, interval: int, w: World, action: Action): (r: seq<Round>)
    ensures RoundsIn(h, r)
  {
    if action.Collected? && action.reading < |h| && w.target.Some? then
      var t, s := w.target.value, h[action.reading];
      if BuildUpdate(t, Shown(s, Uplink), Shown(s, Downlink), Seen(s), interval).Some?
      then [Round(action.reading, t.accounted)]
      else []
    else []
  }

  ghost function Rounds(h: seq<Reading>, interval: int, w: World, actions: seq<Action>): (r: seq<Round>)
    requires Unsigned(h) && WorldOk(w)
    ensures RoundsIn(h, r)
    decreases |actions|
  {
    hide WorldOk, Intent.Evolves, Next, Unsigned, Committed;
    if actions == [] then []
    else
      StepKeeps(h, interval, w, actions[0]);
      Committed(h, interval, w, actions[0]) + Rounds(h, interval, Next(h, interval, w, actions[0]), actions[1..])
  }

  /** The stored cursor and total are what these rounds amount to. */
  ghost predicate Sums(h: seq<Reading>, interval: int, w: World, rounds: seq<Round>)
    requires RoundsIn(h, rounds)
  {
    (w.account.cursor, w.account.book.total) == Meter(h, rounds, interval)
  }

  /** No round was taken against a snapshot that had accounted for more than the books held. */
  ghost predicate Funded(h: seq<Reading>, interval: int, rounds: seq<Round>)
    requires RoundsIn(h, rounds)
  {
    forall i :: 0 <= i < |rounds| ==> Within(rounds[i].accounted, Meter(h, rounds[..i], interval).1)
  }

  predicate Within(a: Bytes, b: Bytes) { 0 <= a.up <= b.up && 0 <= a.down <= b.down }

  /** The zone of the snapshot only names the day. */
  lemma ZoneOnlyNamesTheDay(t: Target, up: Sample, down: Sample, o: Observation, interval: int)
    ensures var r, s := BuildUpdate(t, up, down, o, interval), BuildUpdate(t.(offset := 0), up, down, o, interval);
            (r.Some? <==> s.Some?) && (r.Some? ==> r.value.cursor == s.value.cursor && r.value.delta == s.value.delta)
  {
    hide DayStart, RestartConfirmed, ApplySample, Guarded;
  }

  lemma CollectSums(h: seq<Reading>, interval: int, w: World, past: seq<Round>, n: nat, offset: int)
    requires WorldOk(w) && Unsigned(h) && RoundsIn(h, past) && Sums(h, interval, w, past) && Funded(h, interval, past)
    requires |w.account.book.cycles| > 0
    ensures var rounds := past + Committed(h, interval, w, Collected(n, offset));
            Sums(h, interval, Collect(h, interval, w, n, offset), rounds) && Funded(h, interval, rounds)
  {
    hide BuildUpdate, CommitTraffic, AccountOk, ViewsOk, MoveMarks, Unsigned, Meter;
    var rounds := past + Committed(h, interval, w, Collected(n, offset));
    if n < |h| && w.target.Some? {
      var t, s := w.target.value, h[n];
      var up, down, o := Shown(s, Uplink), Shown(s, Downlink), Seen(s);
      CollectReady(w);
      SamplesCount(h, n);
      UpdateIsSound(t, up, down, o, interval);
      ZoneOnlyNamesTheDay(t, up, down, o, interval);
      var u := BuildUpdate(t, up, down, o, interval);
      if u.Some? {
        CommitKeeps(w.account, u.value, s.at, offset);
        OneMoreRound(h, interval, past, Round(n, t.accounted));
        assert t.(offset := 0) == Target(w.account.cursor, w.account.book.total, t.accounted, 0);
      } else {
        assert rounds == past;
      }
    } else {
      assert rounds == past;
    }
  }

  lemma SamplesCount(h: seq<Reading>, n: nat)
    requires Unsigned(h) && n < |h|
    ensures var up, down := Shown(h[n], Uplink), Shown(h[n], Downlink);
            (up.Found? ==> up.bytes >= 0) && (down.Found? ==> down.bytes >= 0)
  {
  }

  lemma OneMoreRound(h: seq<Reading>, interval: int, past: seq<Round>, round: Round)
    requires RoundsIn(h, past) && round.reading < |h|
    ensures RoundsIn(h, past + [round])
    ensures Meter(h, past + [round], interval) == CommitRound(h, Meter(h, past, interval), round, interval)
    ensures Funded(h, interval, past) && Within(round.accounted, Meter(h, past, interval).1) ==> Funded(h, interval, past + [round])
  {
    hide CommitRound, Within;
    var rounds := past + [round];
    assert rounds[..|past|] == past;
    forall i | 0 <= i < |past| ensures rounds[..i] == past[..i] && rounds[i] == past[i] {
    }
  }

  lemma StepSums(h: seq<Reading>, interval: int, w: World, past: seq<Round>, action: Action)
    requires WorldOk(w) && Unsigned(h) && RoundsIn(h, past) && Sums(h, interval, w, past) && Funded(h, interval, past)
    requires |w.account.book.cycles| > 0
    ensures var rounds := past + Committed(h, interval, w, action);
            Sums(h, interval, Next(h, interval, w, action), rounds) && Funded(h, interval, rounds)
  {
    hide WorldOk, Unsigned, Funded, Meter, Collect;
    if action.Collected? {
      CollectSums(h, interval, w, past, action.reading, action.offset);
    } else {
      hide Next;
      OthersLeaveTheMeter(h, interval, w, action);
      assert past + Committed(h, interval, w, action) == past;
    }
  }

  /** Over every run: the lifetime total and the cursor are those of its committed rounds, in order. */
  lemma {:induction false} RunSums(h: seq<Reading>, interval: int, w: World, past: seq<Round>, actions: seq<Action>)
    requires WorldOk(w) && Unsigned(h) && RoundsIn(h, past) && Sums(h, interval, w, past) && Funded(h, interval, past)
    ensures var rounds := past + Rounds(h, interval, w, actions);
            Sums(h, interval, Run(h, interval, w, actions), rounds) && Funded(h, interval, rounds)
    decreases |actions|
  {
    hide WorldOk, Unsigned, Funded, Sums, Next, Intent.Evolves, Committed;
    if actions == [] {
      assert past + Rounds(h, interval, w, actions) == past;
    } else {
      StepKeeps(h, interval, w, actions[0]);
      StepSums(h, interval, w, past, actions[0]);
      var next, more := Next(h, interval, w, actions[0]), Committed(h, interval, w, actions[0]);
      RunSums(h, interval, next, past + more, actions[1..]);
      assert past + Rounds(h, interval, w, actions) == past + more + Rounds(h, interval, next, actions[1..]);
    }
  }

  /** Unbroken rounds against snapshots of their own books leave nothing out. */
  lemma {:induction false} UnbrokenIsExact(h: seq<Reading>, rounds: seq<Round>, interval: int)
    requires HistoryOk(h) && RoundsIn(h, rounds) && Unbroken(h, rounds, interval) && Funded(h, interval, rounds) && interval >= 1000
    requires Metering.Observed(h, Uplink, rounds) <= MAX_INT64 && Metering.Observed(h, Downlink, rounds) <= MAX_INT64
    ensures SnapshotsFit(h, rounds)
    ensures Exact(h, rounds, Meter(h, rounds, interval).0, Meter(h, rounds, interval).1)
    decreases |rounds|
  {
    hide Metering.Observed, Unbroken, HistoryOk, Meter, Funded, SnapshotsFit;
    if rounds == [] {
      NoSnapshots(h);
    } else {
      FrontIsFunded(h, rounds, interval);
      FrontIsSmaller(h, rounds, interval);
      UnbrokenIsExact(h, rounds[..|rounds| - 1], interval);
      LastSnapshotFits(h, rounds);
    }
    RecordsExactlyWhatWasObserved(h, rounds, interval);
  }

  lemma NoSnapshots(h: seq<Reading>)
    ensures SnapshotsFit(h, [])
  {
  }

  lemma LastSnapshotFits(h: seq<Reading>, rounds: seq<Round>)
    requires RoundsIn(h, rounds) && rounds != [] && SnapshotsFit(h, rounds[..|rounds| - 1])
    requires var front := rounds[..|rounds| - 1];
             Within(rounds[|rounds| - 1].accounted, Bytes(Metering.Observed(h, Uplink, front), Metering.Observed(h, Downlink, front)))
    ensures SnapshotsFit(h, rounds)
  {
    hide Metering.Observed;
    var front := rounds[..|rounds| - 1];
    forall i | 0 <= i < |front| ensures rounds[..i] == front[..i] && rounds[i] == front[i] {
    }
  }

  lemma FrontIsFunded(h: seq<Reading>, rounds: seq<Round>, interval: int)
    requires RoundsIn(h, rounds) && Unbroken(h, rounds, interval) && Funded(h, interval, rounds) && rounds != []
    ensures var front := rounds[..|rounds| - 1];
            Unbroken(h, front, interval) && Funded(h, interval, front) && Within(rounds[|rounds| - 1].accounted, Meter(h, front, interval).1)
  {
    hide Meter, Within, RestartConfirmed;
    var front := rounds[..|rounds| - 1];
    forall i | 0 <= i < |front| ensures front[..i] == rounds[..i] && front[i] == rounds[i] {
    }
  }

  lemma FrontIsSmaller(h: seq<Reading>, rounds: seq<Round>, interval: int)
    requires HistoryOk(h) && RoundsIn(h, rounds) && Unbroken(h, rounds, interval) && rounds != []
    requires Metering.Observed(h, Uplink, rounds) <= MAX_INT64 && Metering.Observed(h, Downlink, rounds) <= MAX_INT64
    ensures var front := rounds[..|rounds| - 1];
            Metering.Observed(h, Uplink, front) <= MAX_INT64 && Metering.Observed(h, Downlink, front) <= MAX_INT64
  {
    hide RestartConfirmed;
    var n := |rounds| - 1;
    if n > 0 {
      assert Ordered(h[rounds[n - 1].reading], h[rounds[n].reading]);
      ObservedStep(h, Uplink, rounds);
      ObservedStep(h, Downlink, rounds);
    }
  }

  /** From a user's creation, through edits, resets, rollovers, failed rounds and stale snapshots: if every counter of the
      committed rounds was found, every restart between two of them confirmed, and their sum fits an int64, the lifetime
      total is exactly the sum over the observed boots of the last value observed in each. */
  lemma EveryUnbrokenRunIsExact(h: seq<Reading>, interval: int, policy: Policy, port: int, key: int, now: int, offset: int, actions: seq<Action>)
    requires HistoryOk(h) && Unsigned(h) && PolicyOk(policy) && interval >= 1000
    requires var rounds := Rounds(h, interval, Newborn(policy, port, key, now, offset), actions);
             Unbroken(h, rounds, interval) && Metering.Observed(h, Uplink, rounds) <= MAX_INT64 && Metering.Observed(h, Downlink, rounds) <= MAX_INT64
    ensures var w := Newborn(policy, port, key, now, offset);
            var rounds := Rounds(h, interval, w, actions);
            Run(h, interval, w, actions).account.book.total == Bytes(Metering.Observed(h, Uplink, rounds), Metering.Observed(h, Downlink, rounds))
  {
    hide HistoryOk, Unsigned, WorldOk, Run, Rounds, Initial, Unbroken, Metering.Observed, Meter;
    var w := Newborn(policy, port, key, now, offset);
    NothingYet(h, interval, policy, port, key, now, offset);
    RunSums(h, interval, w, [], actions);
    var rounds := Rounds(h, interval, w, actions);
    assert [] + rounds == rounds;
    UnbrokenIsExact(h, rounds, interval);
  }

  lemma NothingYet(h: seq<Reading>, interval: int, policy: Policy, port: int, key: int, now: int, offset: int)
    requires PolicyOk(policy)
    ensures Sums(h, interval, Newborn(policy, port, key, now, offset), []) && Funded(h, interval, [])
  {
    hide WorldOk;
  }
}
