/** The values every other module speaks about: facts of an allocation, the panel namespace,
    adapter error kinds and the one truth table for "should this inbound listen". */
module Domain {

  datatype Option<+T> = None | Some(value: T)

  datatype Lifecycle = Active | Deleted

  datatype QuotaState = WithinLimit | Exceeded

  datatype Reason =
    | Create | Enable | Disable | QuotaBlock | QuotaRestore | Rotate | Delete | Reconcile | PortChange

  datatype ErrorKind =
    | InvalidArgument | UnsupportedProtocol | IncompatibleProfile | InstanceUnavailable | DeadlineExceeded
    | ProfileNotFound | UserAlreadyExists | UserNotFound | PortUnavailable | InboundAlreadyExists
    | InboundNotFound | LastManagedClient | StatsNotFound | VersionMismatch | UpstreamRejected | Internal

  datatype Cause = Cause(kind: ErrorKind, retryable: bool)

  const MAX_INT64: int := 0x7FFF_FFFF_FFFF_FFFF
  const MAX_LIMIT: int := 0x4000_0000_0000_0000

  // ---- panel namespace ----

  const NAMESPACE_PREFIX := "xpanel-"
  const ROTATION_SUFFIX := "-rotate"

  predicate IsPanelNamespace(value: string) { NAMESPACE_PREFIX <= value }

  function RotationSafetyId(statisticsId: string): (r: string)
    ensures r != statisticsId
  {
    assert |statisticsId + ROTATION_SUFFIX| == |statisticsId| + |ROTATION_SUFFIX|;
    statisticsId + ROTATION_SUFFIX
  }

  // ---- desired presence and quota ----

  predicate InboundDesiredPresent(lifecycle: Lifecycle, adminEnabled: bool, quota: QuotaState) {
    lifecycle == Active && adminEnabled && quota == WithinLimit
  }

  /** Addition on int64 byte counters: None stands for the overflow flag. */
  function AddBytes(a: int, b: int): Option<int> {
    if a < 0 || b < 0 then None
    else if a > MAX_INT64 - b then None
    else Some(a + b)
  }

  predicate IsQuotaExceeded(limit: Option<int>, up: int, down: int) {
    match limit
    case None => false
    case Some(bytes) =>
      match AddBytes(up, down)
      case None => true
      case Some(total) => total >= bytes
  }

  /** The int64 test agrees with the comparison over unbounded integers, overflow included. */
  lemma QuotaTestIsExact(limit: Option<int>, up: int, down: int)
    requires limit.Some? ==> limit.value <= MAX_LIMIT
    requires 0 <= up && 0 <= down
    ensures IsQuotaExceeded(limit, up, down) <==> limit.Some? && up + down >= limit.value
  {
    assert MAX_LIMIT <= MAX_INT64;
  }

  datatype Decision = Decision(quota: QuotaState, wasPresent: bool, willBePresent: bool, reason: Option<Reason>) {
    predicate NeedsOperation() { wasPresent != willBePresent }
  }

  function DecideTransition(lifecycle: Lifecycle, wasEnabled: bool, was: QuotaState,
                            adminEnabled: bool, exceeded: bool): Decision {
    var quota := if exceeded then Exceeded else WithinLimit;
    var active := lifecycle == Active;
    var wasPresent := active && wasEnabled && was == WithinLimit;
    var willBePresent := active && adminEnabled && quota == WithinLimit;
    var reason :=
      if wasPresent && !willBePresent then
        if exceeded && was == WithinLimit && adminEnabled then Some(QuotaBlock) else Some(Disable)
      else if !wasPresent && willBePresent then
        if was == Exceeded && !exceeded && wasEnabled && adminEnabled then Some(QuotaRestore) else Some(Enable)
      else None;
    Decision(quota, wasPresent, willBePresent, reason)
  }

  /** An operation is queued exactly when presence changes, its reason says in which direction, and it blames the quota
      exactly when the administrator's switch was not what moved. */
  lemma DecisionExplained(lifecycle: Lifecycle, wasEnabled: bool, was: QuotaState, adminEnabled: bool, exceeded: bool)
    ensures var d := DecideTransition(lifecycle, wasEnabled, was, adminEnabled, exceeded);
            && (d.NeedsOperation() <==> d.reason.Some?)
            && (d.NeedsOperation() <==>
                  InboundDesiredPresent(lifecycle, wasEnabled, was) != InboundDesiredPresent(lifecycle, adminEnabled, d.quota))
            && (d.NeedsOperation() ==>
                  && (d.reason.value in {QuotaRestore, Enable} <==> d.willBePresent)
                  && (d.reason.value in {QuotaRestore, QuotaBlock} <==> wasEnabled == adminEnabled))
  {
  }
}
