/** One collection round reads its identities in batches; a round that straddles a restart must not be mixed. */
module Collection {
  import opened Domain
  import opened Metering

  const BATCH: nat := 20

  const TOLERANCE: int := 1000

  datatype BatchObservation = BatchObservation(at: Option<int>, boot: int, known: bool, uptime: int)

  datatype Snapshot = Snapshot(id: string, direction: Direction, sample: Sample)

  datatype Batch = Batch(observation: BatchObservation, snapshots: seq<Snapshot>)

  datatype Merge = Failed | Inconsistent(last: BatchObservation) | Merged(observation: BatchObservation, snapshots: seq<Snapshot>)

  /** What makes a batch unfit to join the round its first batch opened. */
  predicate Mismatch(first: BatchObservation, previous: BatchObservation, current: BatchObservation) {
    || first.known != current.known
    || (first.known && (current.boot - first.boot > TOLERANCE || first.boot - current.boot > TOLERANCE))
    || (first.known && previous.at.Some? && current.uptime < previous.uptime)
    || (previous.at.Some? && (current.at.None? || current.at.value < previous.at.value))
  }

  /** Answer k arrived and fits what the first and the previous answer said. */
  predicate Joins(answers: seq<Option<Batch>>, k: nat)
    requires k < |answers| && forall i :: 0 <= i < k ==> answers[i].Some?
  {
    answers[k].Some? &&
    (k > 0 ==> !Mismatch(answers[0].value.observation, answers[k - 1].value.observation, answers[k].value.observation))
  }

  predicate AllArrived(answers: seq<Option<Batch>>, n: nat) {
    n <= |answers| && forall i :: 0 <= i < n ==> answers[i].Some?
  }

  ghost predicate AllJoin(answers: seq<Option<Batch>>, n: nat) {
    AllArrived(answers, n) && forall k :: 0 <= k < n ==> Joins(answers, k)
  }

  /** The answers of one process, in order: epochs within a second of the first, uptimes and times that never fall, and no time lost
      once there was one. */
  predicate OfOneProcess(answers: seq<Option<Batch>>, n: nat)
    requires AllArrived(answers, n)
  {
    forall k :: 0 < k < n ==> Follows(answers[0].value.observation, answers[k - 1].value.observation, answers[k].value.observation)
  }

  predicate Follows(first: BatchObservation, previous: BatchObservation, current: BatchObservation) {
    && current.known == first.known
    && (first.known ==> first.boot - 1000 <= current.boot <= first.boot + 1000)
    && (previous.at.Some? ==>
          && current.at.Some? && current.at.value >= previous.at.value
          && (first.known ==> current.uptime >= previous.uptime))
  }

  lemma FollowsIsNoMismatch(first: BatchObservation, previous: BatchObservation, current: BatchObservation)
    ensures Follows(first, previous, current) <==> !Mismatch(first, previous, current)
  {
  }

  lemma JoinsAreOfOneProcess(answers: seq<Option<Batch>>, n: nat)
    ensures AllJoin(answers, n) <==> AllArrived(answers, n) && OfOneProcess(answers, n)
  {
    hide Follows, Mismatch;
    forall first, previous, current ensures Follows(first, previous, current) <==> !Mismatch(first, previous, current) {
      FollowsIsNoMismatch(first, previous, current);
    }
    if AllJoin(answers, n) {
      forall k | 0 < k < n
        ensures Follows(answers[0].value.observation, answers[k - 1].value.observation, answers[k].value.observation)
      {
        assert Joins(answers, k);
      }
    }
  }

  function Batches(ids: seq<string>): nat { (|ids| + BATCH - 1) / BATCH }

  function Snapshots(answers: seq<Option<Batch>>, n: nat): seq<Snapshot>
    requires AllArrived(answers, n)
  {
    if n == 0 then [] else Snapshots(answers, n - 1) + answers[n - 1].value.snapshots
  }

  function Flatten(queries: seq<seq<string>>): seq<string> {
    if queries == [] then [] else Flatten(queries[..|queries| - 1]) + queries[|queries| - 1]
  }

  /** Reads every identity exactly once, in batches within the adapter's limit, and merges all or nothing: the round
      stands exactly when every batch arrived and fits. `answers[k]` is what the node says to batch k. */
  method ReadAll(ids: seq<string>, answers: seq<Option<Batch>>) returns (r: Merge, queries: seq<seq<string>>)
    requires |ids| > 0 && |answers| >= Batches(ids)
    ensures r.Merged? <==> AllJoin(answers, Batches(ids))
    ensures r.Merged? <==> AllArrived(answers, Batches(ids)) && OfOneProcess(answers, Batches(ids))
    ensures r.Merged? ==>
              var n := Batches(ids);
              var last := answers[n - 1].value.observation;
              && Flatten(queries) == ids && |queries| == n
              && r.snapshots == Snapshots(answers, n)
              && r.observation == answers[0].value.observation.(at := if last.at.Some? then last.at else answers[0].value.observation.at)
    ensures forall k :: 0 <= k < |queries| ==> 0 < |queries[k]| <= 20
    ensures |queries| <= Batches(ids)
    ensures r.Failed? ==> |queries| > 0 && answers[|queries| - 1].None?
    ensures r.Inconsistent? ==> |queries| > 1 && answers[|queries| - 1].Some? && r.last == answers[|queries| - 1].value.observation
  {
    JoinsAreOfOneProcess(answers, Batches(ids));
    hide OfOneProcess;
    var start, k := 0, 0;
    var first := BatchObservation(None, 0, false, 0);
    var previous := first;
    var snapshots := [];
    queries := [];
    while start < |ids|
      invariant start == k * BATCH
      invariant 0 <= k <= Batches(ids) && k == |queries|
      invariant (k - 1) * BATCH < |ids|
      invariant AllJoin(answers, k)
      invariant k > 0 ==> first == answers[0].value.observation && previous == answers[k - 1].value.observation
      invariant snapshots == Snapshots(answers, k)
      invariant Flatten(queries) == ids[..if start <= |ids| then start else |ids|]
      invariant forall i :: 0 <= i < |queries| ==> 0 < |queries[i]| <= BATCH
      decreases |ids| - start
    {
      var end := if start + BATCH > |ids| then |ids| else start + BATCH;
      queries := queries + [ids[start..end]];
      assert queries[..k] + [ids[start..end]] == queries;
      assert queries[..|queries| - 1] == queries[..k];
      assert ids[..start] + ids[start..end] == ids[..end];
      if answers[k].None? {
        assert !AllJoin(answers, Batches(ids));
        return Failed, queries;
      }
      var batch := answers[k].value;
      if start == 0 {
        first := batch.observation;
      } else if Mismatch(first, previous, batch.observation) {
        assert !Joins(answers, k);
        assert k > 0 && |queries| == k + 1;
        assert !AllJoin(answers, Batches(ids));
        return Inconsistent(batch.observation), queries;
      }
      previous := batch.observation;
      snapshots := snapshots + batch.snapshots;
      start := start + BATCH;
      k := k + 1;
    }
    assert k == Batches(ids);
    assert ids[..|ids|] == ids;
    r := Merged(if previous.at.Some? then first.(at := previous.at) else first, snapshots);
  }

  // ---- what the quantised boot epochs can and cannot tell ----

  /** The epoch an observation derives: its own time cut to the second, minus whole seconds of uptime. */
  function EpochOf(at: int, started: int): int
    requires started <= at
  {
    WholeSeconds(at) - (at - started) / 1000 * 1000
  }

  /** Two looks at one process derive epochs at most a second apart, and each within a second of the true start. */
  lemma OneProcessJitters(at1: int, at2: int, started: int)
    requires started <= at1 && started <= at2
    ensures -1000 <= EpochOf(at1, started) - EpochOf(at2, started) <= 1000
    ensures -1000 < EpochOf(at1, started) - started < 1000
    ensures EpochOf(at1, started) % 1000 == 0
  {
    EpochIsNearStart(at1, started);
    EpochIsNearStart(at2, started);
  }

  lemma EpochIsNearStart(at: int, started: int)
    requires started <= at
    ensures -1000 < EpochOf(at, started) - started < 1000 && EpochOf(at, started) % 1000 == 0
    ensures EpochOf(at, started) == started + (at - started) % 1000 - at % 1000
  {
    var s, u := at / 1000, (at - started) / 1000;
    assert EpochOf(at, started) == (s - u) * 1000;
  }

  /** A restart is confirmed whenever the two processes started more than the interval and two seconds apart; a round
      whose batches straddle a restart is merged only if the processes started less than three seconds apart. */
  lemma RestartsAreTold(at1: int, start1: int, at2: int, start2: int, interval: int)
    requires start1 <= at1 && start2 <= at2
    ensures start2 - start1 >= interval + 2000 ==>
              RestartConfirmed(Some(EpochOf(at1, start1)), EpochOf(at2, start2), true, interval)
    ensures forall first: BatchObservation, previous: BatchObservation, current: BatchObservation ::
              (first.known && first.boot == EpochOf(at1, start1) && current.boot == EpochOf(at2, start2) &&
               !Mismatch(first, previous, current)) ==> -3000 < start2 - start1 < 3000
  {
    EpochIsNearStart(at1, start1);
    EpochIsNearStart(at2, start2);
  }
}
