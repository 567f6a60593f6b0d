/** The worker's loop: lease what is due, carry it out, write down what came of it, until nothing is due. */
module Worker {
  import opened Domain
  import opened Backoff
  import opened Xray
  import opened Synchronizer
  import opened Handler
  import opened Intent
  import opened Quota
  import opened Store
  import opened Drift
  import opened Capability
  import opened Projection
  import opened Rows

  /** The normalised options of a worker; `maxRetry` in milliseconds. */
  datatype Options = Options(owner: nat, lease: int, maxRetry: int)

  predicate OptionsOk(o: Options) { o.lease > 0 && o.maxRetry >= 1 }

  const UNREACHABLE_THRESHOLD := 3

  // ---- one operation ----

  /** What the worker loads with a lease: the operation, and the user's rows as they are then. */
  function WorkOf(u: User, k: nat): (w: Work)
    requires IsOp(u.account.intent, k)
    ensures w.Sync?
  {
    var a := u.account.intent;
    Sync(u.tag, u.identity, a.inbound.port, a.ops[k].presence, a.ops[k].reason, a.desiredVersion)
  }

  function Later(attempts: nat, now: int, options: Options): Verdict {
    Reschedule(attempts + 1, now + WaitMillis(attempts + 1, options.maxRetry))
  }

  function AfterOutcome(a: Allocation, k: nat, o: Outcome, options: Options, now: int): Allocation
    requires IsOp(a, k)
  {
    var attempts := a.ops[k].attempts;
    match o
    case Confirm(present, version) => Intent.Confirm(a, k, options.owner, version, present).0
    case Retry(_) => FinishLeased(a, k, options.owner, if IsPermanent(o, attempts) then Fail else Later(attempts, now, options))
    case RetryLater(_) => FinishLeased(a, k, options.owner, Later(attempts, now, options))
    case GiveUp(_) => FinishLeased(a, k, options.owner, Fail)
    case Abandon => a
  }

  function Taken(a: Allocation, k: nat, options: Options, now: int): Allocation
    requires IsOp(a, k)
  {
    SetOp(a, k, a.ops[k].(state := OpState.Leased, lease := Some(Lease(options.owner, now + options.lease))))
  }

  /** Leasing an operation and carrying it out, seen from the user's row and the node. */
  function Handled(u: User, k: nat, n: Node, script: seq<Choice>, options: Options, now: int): (Allocation, Node)
    requires IsOp(u.account.intent, k)
  {
    var w := WorkOf(u, k);
    var (o, n') := Finish(w, Start(w), n, script);
    (AfterOutcome(Taken(u.account.intent, k, options, now), k, o, options, now), n')
  }

  ghost predicate Quiet(a: Allocation, now: int) {
    forall k :: IsOp(a, k) ==> !Due(a.ops[k], now)
  }

  lemma OnlyTheLastIsDue(a: Allocation, k: nat, now: int)
    requires OpsOk(a) && IsOp(a, k)
    ensures Due(a.ops[k], now) ==> k == |a.ops| - 1
    ensures (forall i :: IsOp(a, i) ==> !Due(a.ops[i], now)) <==> !Due(a.ops[|a.ops| - 1], now)
  {
  }

  /** Whatever becomes of an attempt, the invariant is kept and the operation is not due again at the same moment. */
  lemma HandledIsQuiet(u: User, k: nat, n: Node, script: seq<Choice>, options: Options, now: int)
    requires Inv(u.account.intent) && IsOp(u.account.intent, k) && Due(u.account.intent.ops[k], now) && OptionsOk(options)
    ensures var a, b := u.account.intent, Handled(u, k, n, script, options, now).0;
            Inv(b) && Evolves(a, b) && Quiet(b, now) && k == |a.ops| - 1
  {
    hide Finish, Evolves, Inv, SnapshotOk, Quiet, AfterOutcome;
    var a := u.account.intent;
    var taken := Taken(a, k, options, now);
    var w := WorkOf(u, k);
    LeaseKeeps(a, k, options.owner, now, options.lease);
    var o := Finish(w, Start(w), n, script).0;
    ConfirmsAsAsked(w, n, script);
    AfterOutcomeIsQuiet(taken, k, o, options, now);
    EvolvesTransitively(a, taken, AfterOutcome(taken, k, o, options, now));
  }

  lemma AfterOutcomeIsQuiet(a: Allocation, k: nat, o: Outcome, options: Options, now: int)
    requires Inv(a) && IsOp(a, k) && Holds(a, k, options.owner) && !Due(a.ops[k], now) && OptionsOk(options)
    requires o.Confirm? ==> o == Outcome.Confirm(a.ops[k].presence, if a.ops[k].presence then a.desiredVersion else 0)
    ensures var b := AfterOutcome(a, k, o, options, now); Inv(b) && Evolves(a, b) && Quiet(b, now)
  {
    hide Evolves, SyncOk, IntentOk, CredentialsOk, WaitMillis;
    var b := AfterOutcome(a, k, o, options, now);
    SameEvolves(a);
    HolderIsCurrent(a, k, options.owner);
    var attempts := a.ops[k].attempts;
    match o {
      case Confirm(_, _) => ConfirmKeeps(a, k, options.owner, Intent.Look(a));
      case Retry(_) => FinishLeasedKeeps(a, k, options.owner, if IsPermanent(o, attempts) then Fail else Later(attempts, now, options));
      case RetryLater(_) => FinishLeasedKeeps(a, k, options.owner, Later(attempts, now, options));
      case GiveUp(_) => FinishLeasedKeeps(a, k, options.owner, Fail);
      case Abandon =>
    }
    assert |b.ops| == |a.ops|;
    OnlyTheLastIsDue(b, k, now);
  }

  // ---- the same, said of the row ----

  lemma LoadsIsWork(w: Work, u: User, k: nat)
    requires IsOp(u.account.intent, k) && Loads(w, u, k)
    ensures w == WorkOf(u, k)
  {
  }

  lemma OutcomeIsRecorded(a: Allocation, k: nat, o: Outcome, options: Options, now: int)
    requires IsOp(a, k) && Holds(a, k, options.owner) && a.ops[k].revision == a.desiredRevision && OptionsOk(options)
    ensures Recorded(a, AfterOutcome(a, k, o, options, now), k, o, options.maxRetry, now)
  {
    hide Delay, WaitMillis, DestroyBelow, Activate;
    WaitIsDelay(a.ops[k].attempts + 1, options.maxRetry);
  }

  lemma AttemptIsCarried(u: User, v: User, k: nat, n: Node, script: seq<Choice>, options: Options, now: int)
    requires IsOp(u.account.intent, k) && Holds(u.account.intent, k, options.owner) && OptionsOk(options)
    requires u.account.intent.ops[k].revision == u.account.intent.desiredRevision
    requires var w := WorkOf(u, k); v.account.intent == AfterOutcome(u.account.intent, k, Finish(w, Start(w), n, script).0, options, now)
    ensures var w := WorkOf(u, k); Carried(u, v, k, n, Finish(w, Start(w), n, script).1, script, options.maxRetry, now)
  {
    hide Finish, AfterOutcome, Recorded, Projected;
    forall w | Loads(w, u, k)
      ensures w == WorkOf(u, k)
      ensures Recorded(u.account.intent, v.account.intent, k, Finish(w, Start(w), n, script).0, options.maxRetry, now)
      ensures Proper(w) && AllHonest(script) ==> Projected(w, n, Finish(w, Start(w), n, script).1, Finish(w, Start(w), n, script).0)
    {
      LoadsIsWork(w, u, k);
      OutcomeIsRecorded(u.account.intent, k, Finish(w, Start(w), n, script).0, options, now);
      if Proper(w) && AllHonest(script) { ProjectedAnyway(w, n, script); }
    }
  }

  /** The row of a user whose last operation was taken up. */
  function LeasedTo(u: User, options: Options, now: int): User
    requires |u.account.intent.ops| > 0
  {
    var a, k := u.account.intent, |u.account.intent.ops| - 1;
    var op := a.ops[k].(state := OpState.Leased, lease := Some(Lease(options.owner, now + options.lease)));
    u.(account := u.account.(intent := a.(ops := a.ops[k := op])))
  }

  /** What a turn of the loop does to a user's row and the node: the last operation is leased, carried out and recorded. */
  ghost predicate Tried(u: User, v: User, n: Node, n': Node, script: seq<Choice>, options: Options, now: int) {
    |u.account.intent.ops| > 0 &&
    Carried(LeasedTo(u, options, now), v, |u.account.intent.ops| - 1, n, n', script, options.maxRetry, now)
  }

  lemma HandledIsTried(u: User, v: User, n: Node, n': Node, script: seq<Choice>, options: Options, now: int)
    requires Inv(u.account.intent) && |u.account.intent.ops| > 0 && OptionsOk(options)
    requires (v.account.intent, n') == Handled(u, LastOp(u), n, script, options, now)
    ensures Tried(u, v, n, n', script, options, now)
  {
    hide Finish, AfterOutcome, Inv, Carried;
    LastIsCurrent(u.account.intent);
    LeasedWork(u, LastOp(u), options, now);
    AttemptIsCarried(LeasedTo(u, options, now), v, LastOp(u), n, script, options, now);
  }

  ghost predicate AllTried(before: seq<User>, after: seq<User>, order: seq<nat>, nodes: seq<Node>, fates: seq<seq<Choice>>,
                           options: Options, now: int) {
    |after| == |before| && |nodes| == |order| + 1 &&
    forall m :: 0 <= m < |order| ==>
      order[m] < |before| && Tried(before[order[m]], after[order[m]], nodes[m], nodes[m + 1], Fate(fates, m), options, now)
  }

  lemma ChronicleIsTried(before: seq<User>, after: seq<User>, order: seq<nat>, nodes: seq<Node>, fates: seq<seq<Choice>>,
                         options: Options, now: int)
    requires Chronicle(before, after, order, nodes, fates, options, now) && AllInv(before) && OptionsOk(options)
    ensures AllTried(before, after, order, nodes, fates, options, now)
  {
    hide Handled, Tried, Inv, DueAt;
    forall m | 0 <= m < |order|
      ensures order[m] < |before| && Tried(before[order[m]], after[order[m]], nodes[m], nodes[m + 1], Fate(fates, m), options, now)
    {
      assert Chapter(before, after, order[m], nodes[m], nodes[m + 1], Fate(fates, m), options, now);
      HandledIsTried(before[order[m]], after[order[m]], nodes[m], nodes[m + 1], Fate(fates, m), options, now);
    }
  }

  ghost predicate AllCleaned(before: seq<Removal>, after: seq<Removal>, users: seq<User>, order: seq<nat>, nodes: seq<Node>,
                             fates: seq<seq<Choice>>, options: Options, now: int) {
    |after| == |before| && |nodes| == |order| + 1 &&
    forall m :: 0 <= m < |order| ==>
      order[m] < |before| &&
      Cleaned(before[order[m]], after[order[m]], OwnerOf(users, before[order[m]].tag), nodes[m], nodes[m + 1], Fate(fates, m),
              options.maxRetry, now)
  }

  lemma SweptIsCleaned(before: seq<Removal>, after: seq<Removal>, users: seq<User>, order: seq<nat>, nodes: seq<Node>,
                       fates: seq<seq<Choice>>, options: Options, now: int)
    requires Swept(before, after, users, order, nodes, fates, options, now) && OptionsOk(options)
    ensures AllCleaned(before, after, users, order, nodes, fates, options, now)
  {
    hide Removed, Cleaned, OwnerOf;
    forall m | 0 <= m < |order|
      ensures order[m] < |before|
      ensures Cleaned(before[order[m]], after[order[m]], OwnerOf(users, before[order[m]].tag), nodes[m], nodes[m + 1], Fate(fates, m),
                      options.maxRetry, now)
    {
      RemovedIsCleaned(before[order[m]], OwnerOf(users, before[order[m]].tag), nodes[m], Fate(fates, m), options, now);
    }
  }

  lemma LastIsCurrent(a: Allocation)
    requires Inv(a)
    ensures |a.ops| > 0 && a.ops[|a.ops| - 1].revision == a.desiredRevision
  {
  }

  // ---- what a failure says about the template ----

  function Marked(templates: seq<Template>, template: nat, state: Compatibility): seq<Template> {
    if template < |templates| then templates[template := templates[template].(state := state)] else templates
  }

  /** `compatible` is what the template was when the operation was loaded. */
  function Tracked(templates: seq<Template>, template: nat, compatible: bool, failures: nat, o: Outcome): (seq<Template>, nat) {
    match o
    case Confirm(_, _) => (templates, 0)
    case Retry(cause) =>
      if cause.kind in {IncompatibleProfile, UnsupportedProtocol, ProfileNotFound, VersionMismatch}
      then (Marked(templates, template, Incompatible), failures)
      else if cause.kind in {InstanceUnavailable, DeadlineExceeded} then
        (if failures + 1 >= UNREACHABLE_THRESHOLD && compatible then Marked(templates, template, Unreachable) else templates,
         failures + 1)
      else (templates, failures)
    case _ => (templates, failures)
  }

  /** Reports never make a template projectable again. */
  ghost predicate Worsened(before: seq<Template>, after: seq<Template>) {
    |before| == |after| && forall t: nat :: Projectable(after, t) ==> Projectable(before, t)
  }

  predicate IsCompatible(templates: seq<Template>, template: nat) {
    template < |templates| && templates[template].state == Compatible
  }

  /** What the node says of an attempt that did not reach it. */
  predicate Unreached(o: Outcome) { o.Retry? && o.cause.kind in {InstanceUnavailable, DeadlineExceeded} }

  function TrackedAll(templates: seq<Template>, t: nat, failures: nat, outcomes: seq<Outcome>): (seq<Template>, nat)
    decreases |outcomes|
  {
    if outcomes == [] then (templates, failures)
    else
      var (after, more) := Tracked(templates, t, IsCompatible(templates, t), failures, outcomes[0]);
      TrackedAll(after, t, more, outcomes[1..])
  }

  /** A compatible template becomes unreachable with the third attempt in a row that does not reach the node, and not before. */
  lemma {:induction false} UnreachableAtTheThird(templates: seq<Template>, t: nat, failures: nat, outcomes: seq<Outcome>)
    requires t < |templates| && templates[t].state == (if failures >= 3 then Unreachable else Compatible)
    requires forall i :: 0 <= i < |outcomes| ==> Unreached(outcomes[i])
    ensures var (after, count) := TrackedAll(templates, t, failures, outcomes);
            && count == failures + |outcomes| && |after| == |templates|
            && after[t].state == (if count >= 3 then Unreachable else Compatible)
            && forall u :: 0 <= u < |templates| && u != t ==> after[u] == templates[u]
    decreases |outcomes|
  {
    if outcomes != [] {
      var (after, more) := Tracked(templates, t, IsCompatible(templates, t), failures, outcomes[0]);
      UnreachableAtTheThird(after, t, more, outcomes[1..]);
    }
  }

  /** A confirmation starts the count anew; a profile the node cannot take is blamed at once, whatever the count; no other
      failure says anything about the template. */
  lemma BlameIsForTheProfile(templates: seq<Template>, t: nat, compatible: bool, failures: nat, o: Outcome)
    requires t < |templates| && !Unreached(o)
    ensures var (after, count) := Tracked(templates, t, compatible, failures, o);
            && count == (if o.Confirm? then 0 else failures)
            && after == (if o.Retry? && o.cause.kind in {IncompatibleProfile, UnsupportedProtocol, ProfileNotFound, VersionMismatch}
                         then templates[t := templates[t].(state := Incompatible)] else templates)
  {
  }

  lemma TrackedWorsens(templates: seq<Template>, template: nat, failures: nat, o: Outcome)
    ensures var tracked := Tracked(templates, template, IsCompatible(templates, template), failures, o).0;
            Worsened(templates, tracked) && (!o.Retry? ==> tracked == templates)
  {
  }

  // ---- the loop ----

  function Fate(fates: seq<seq<Choice>>, m: nat): seq<Choice> { if m < |fates| then fates[m] else [] }

  predicate SameUser(u: User, v: User) {
    u.tag == v.tag && u.identity == v.identity && u.template == v.template && u.address == v.address &&
    u.account.book == v.account.book && u.account.cursor == v.account.cursor
  }

  predicate DueAt(u: User, now: int) {
    exists k :: 0 <= k < |u.account.intent.ops| && Due(u.account.intent.ops[k], now)
  }

  /** The operation a user's row offers for leasing: the last one. */
  function LastOp(u: User): nat
    requires |u.account.intent.ops| > 0
  {
    |u.account.intent.ops| - 1
  }

  /** The account of a drain: each user it took up, in turn, and the node before and after each. */
  ghost predicate Chronicle(before: seq<User>, after: seq<User>, order: seq<nat>, nodes: seq<Node>, fates: seq<seq<Choice>>,
                            options: Options, now: int) {
    && |after| == |before| && |nodes| == |order| + 1
    && (forall i :: 0 <= i < |before| ==> SameUser(before[i], after[i]))
    && (forall i :: 0 <= i < |before| && i !in order ==> after[i] == before[i])
    && (forall m, l :: 0 <= m < l < |order| ==> order[m] != order[l])
    && (forall m :: 0 <= m < |order| ==> Chapter(before, after, order[m], nodes[m], nodes[m + 1], Fate(fates, m), options, now))
  }

  /** A user taken up once was due, and its row and the node are what handling its last operation makes of them. */
  ghost predicate Chapter(before: seq<User>, after: seq<User>, i: nat, n: Node, n': Node, script: seq<Choice>, options: Options, now: int) {
    && i < |before| == |after| && |before[i].account.intent.ops| > 0 && DueAt(before[i], now)
    && (after[i].account.intent, n') == Handled(before[i], LastOp(before[i]), n, script, options, now)
  }

  /** An attempt on a user's last operation that ends in a failure the template is blamed for. */
  predicate Complains(u: User, n: Node, script: seq<Choice>) {
    |u.account.intent.ops| > 0 && var w := WorkOf(u, LastOp(u)); Finish(w, Start(w), n, script).0.Retry?
  }

  ghost predicate NoComplaints(users: seq<User>, order: seq<nat>, nodes: seq<Node>, fates: seq<seq<Choice>>) {
    |nodes| > |order| && forall m :: 0 <= m < |order| ==> order[m] < |users| && !Complains(users[order[m]], nodes[m], Fate(fates, m))
  }

  lemma FewerComplaints(users: seq<User>, order: seq<nat>, nodes: seq<Node>, fates: seq<seq<Choice>>, i: nat, n: Node)
    requires NoComplaints(users, order + [i], nodes + [n], fates) && |nodes| == |order| + 1
    ensures NoComplaints(users, order, nodes, fates) && i < |users| && !Complains(users[i], nodes[|order|], Fate(fates, |order|))
  {
    hide Complains;
    var order', nodes' := order + [i], nodes + [n];
    assert order'[|order|] == i && nodes'[|order|] == nodes[|order|];
    forall m | 0 <= m < |order|
      ensures order[m] < |users| && !Complains(users[order[m]], nodes[m], Fate(fates, m))
    {
      assert order'[m] == order[m] && nodes'[m] == nodes[m];
    }
  }

  ghost predicate AllInv(users: seq<User>) {
    forall i :: 0 <= i < |users| ==> Inv(users[i].account.intent)
  }

  lemma NextChapter(before: seq<User>, mid: seq<User>, order: seq<nat>, nodes: seq<Node>, fates: seq<seq<Choice>>,
                    options: Options, now: int, i: nat, b: Allocation, n: Node)
    requires Chronicle(before, mid, order, nodes, fates, options, now)
    requires i < |before| && i !in order && |before[i].account.intent.ops| > 0 && DueAt(before[i], now)
    requires (b, n) == Handled(before[i], LastOp(before[i]), nodes[|order|], Fate(fates, |order|), options, now)
    ensures Chronicle(before, WithIntentAt(mid, i, b), order + [i], nodes + [n], fates, options, now)
  {
    hide Handled, DueAt;
    var after, order', nodes' := WithIntentAt(mid, i, b), order + [i], nodes + [n];
    forall m | 0 <= m < |order'|
      ensures Chapter(before, after, order'[m], nodes'[m], nodes'[m + 1], Fate(fates, m), options, now)
    {
      if m < |order| {
        assert Chapter(before, mid, order[m], nodes[m], nodes[m + 1], Fate(fates, m), options, now);
        assert order[m] in order;
        assert after[order[m]] == mid[order[m]];
      }
    }
  }

  // ---- drift removals ----

  /** The managed client of the inbound under a tag, which a removal must leave behind; none for an orphan. */
  function OwnerOf(users: seq<User>, tag: string): string {
    if users == [] then ""
    else if users[0].tag == tag && !users[0].account.intent.inbound.released then users[0].identity
    else OwnerOf(users[1..], tag)
  }

  function RemovalWork(r: Removal, expected: string): (w: Work)
    ensures w.Drift?
  {
    Drift(r.tag, r.whole, r.identity, expected, r.state == OpState.Leased)
  }

  function AfterRemoval(r: Removal, o: Outcome, options: Options, now: int): Removal {
    match o
    case Confirm(_, _) => Finished(r, options.owner, Gone)
    case Retry(_) =>
      Finished(r, options.owner, if IsPermanent(o, r.attempts) then Hopeless
                                 else Again(r.attempts + 1, now + WaitMillis(r.attempts + 1, options.maxRetry)))
    case _ => r
  }

  /** Leasing a removal and carrying it out; a lease that had run out in other hands makes it look first. */
  function Removed(r: Removal, expected: string, n: Node, script: seq<Choice>, options: Options, now: int): (Removal, Node) {
    var w := RemovalWork(r, expected);
    var (o, n') := Finish(w, Start(w), n, script);
    (AfterRemoval(r.(state := OpState.Leased, lease := Some(Lease(options.owner, now + options.lease))), o, options, now), n')
  }

  /** The owner of an inbound is the one user that has it and has not given it back. */
  lemma {:induction false} OwnerIs(users: seq<User>, tag: string)
    requires forall i, j :: 0 <= i < j < |users| ==> users[i].tag != users[j].tag
    ensures forall i :: 0 <= i < |users| && users[i].tag == tag && !users[i].account.intent.inbound.released ==>
              OwnerOf(users, tag) == users[i].identity
    ensures (forall i :: 0 <= i < |users| && users[i].tag == tag ==> users[i].account.intent.inbound.released) ==> OwnerOf(users, tag) == ""
  {
    if users != [] {
      OwnerIs(users[1..], tag);
      assert forall i :: 1 <= i < |users| ==> users[i] == users[1..][i - 1];
      assert users[0].tag == tag ==> forall i :: 0 <= i < |users[1..]| ==> users[1..][i].tag != tag;
    }
  }

  lemma AsksIsWork(w: Work, r: Removal, expected: string)
    requires Asks(w, r, expected)
    ensures w == RemovalWork(r, expected)
  {
  }

  lemma RemovalIsRecorded(before: Removal, r: Removal, o: Outcome, options: Options, now: int)
    requires r == before.(state := OpState.Leased, lease := Some(Lease(options.owner, now + options.lease))) && OptionsOk(options)
    ensures CleaningRecorded(before, AfterRemoval(r, o, options, now), o, options.maxRetry, now)
  {
    hide Delay, WaitMillis;
    WaitIsDelay(r.attempts + 1, options.maxRetry);
  }

  lemma RemovedIsCleaned(r: Removal, expected: string, n: Node, script: seq<Choice>, options: Options, now: int)
    requires OptionsOk(options)
    ensures var (s, n') := Removed(r, expected, n, script, options, now);
            Cleaned(r, s, expected, n, n', script, options.maxRetry, now)
  {
    hide Finish, AfterRemoval, CleaningRecorded, Spared, GoneFor, CleanedCalmly;
    var (s, n') := Removed(r, expected, n, script, options, now);
    var w := RemovalWork(r, expected);
    var o := Finish(w, Start(w), n, script).0;
    RemovalIsRecorded(r, r.(state := OpState.Leased, lease := Some(Lease(options.owner, now + options.lease))), o, options, now);
    RecordedShape(r, s, o, options.maxRetry, now);
    forall v | Asks(v, r, expected) ensures v == w { AsksIsWork(v, r, expected); }
    assert Asks(w, r, expected);
    if AllHonest(script) { RemovalSpares(w, r, expected, n, script); }
    if script == [] {
      RemovalCalmly(w, r, expected, n);
      CalmlyRecorded(r, s, o, expected, n, n', options.maxRetry, now);
    }
  }

  lemma RecordedShape(r: Removal, s: Removal, o: Outcome, ceiling: int, now: int)
    requires CleaningRecorded(r, s, o, ceiling, now)
    ensures s == r.(state := s.state, attempts := s.attempts, nextAttempt := s.nextAttempt, lease := s.lease)
    ensures s.state == Succeeded <==> o.Confirm?
  {
    hide Delay;
  }

  lemma CalmlyRecorded(r: Removal, s: Removal, o: Outcome, owner: string, n: Node, n': Node, ceiling: int, now: int)
    requires CleaningRecorded(r, s, o, ceiling, now) && (o.Confirm? || (o.Retry? && !o.cause.retryable))
    requires o.Confirm? <==> AlreadyGone(r, n) || Removable(r, owner, n)
    requires n'.inbounds == if o.Confirm? then Without(r, n).inbounds else n.inbounds
    ensures CleanedCalmly(r, s, owner, n, n')
  {
    hide Delay, Removable, AlreadyGone, Without;
  }

  lemma RemovedIsQuiet(r: Removal, expected: string, n: Node, script: seq<Choice>, options: Options, now: int)
    requires OptionsOk(options)
    ensures !DueRemoval(Removed(r, expected, n, script, options, now).0, now)
  {
    hide Finish, WaitMillis;
  }

  /** The account of a removal drain. */
  ghost predicate Swept(before: seq<Removal>, after: seq<Removal>, users: seq<User>, order: seq<nat>, nodes: seq<Node>,
                        fates: seq<seq<Choice>>, options: Options, now: int) {
    && |after| == |before| && |nodes| == |order| + 1
    && (forall k :: 0 <= k < |before| && k !in order ==> after[k] == before[k])
    && (forall m, l :: 0 <= m < l < |order| ==> order[m] != order[l])
    && (forall m :: 0 <= m < |order| ==>
          && order[m] < |before|
          && (after[order[m]], nodes[m + 1]) ==
             Removed(before[order[m]], OwnerOf(users, before[order[m]].tag), nodes[m], Fate(fates, m), options, now))
  }

  lemma NextSweep(before: seq<Removal>, mid: seq<Removal>, users: seq<User>, order: seq<nat>, nodes: seq<Node>,
                  fates: seq<seq<Choice>>, options: Options, now: int, k: nat, r: Removal, n: Node)
    requires Swept(before, mid, users, order, nodes, fates, options, now)
    requires k < |before| && k !in order
    requires (r, n) == Removed(before[k], OwnerOf(users, before[k].tag), nodes[|order|], Fate(fates, |order|), options, now)
    ensures Swept(before, mid[k := r], users, order + [k], nodes + [n], fates, options, now)
  {
    hide Removed, OwnerOf;
    forall m | 0 <= m < |order + [k]|
      ensures (mid[k := r][(order + [k])[m]], (nodes + [n])[m + 1]) ==
              Removed(before[(order + [k])[m]], OwnerOf(users, before[(order + [k])[m]].tag), (nodes + [n])[m], Fate(fates, m), options, now)
    {
      if m < |order| { assert order[m] in order; }
    }
  }

  class Worker {
    const db: Database
    const queue: Removals
    const adapter: Adapter
    const options: Options
    var failures: nat

    constructor (db: Database, queue: Removals, adapter: Adapter, options: Options)
      ensures this.db == db && this.queue == queue && this.adapter == adapter && this.options == options && failures == 0
    {
      this.db, this.queue, this.adapter, this.options := db, queue, adapter, options;
      failures := 0;
    }

    /** Carries out a leased operation and writes down what came of it. */
    method HandleSync(i: nat, k: nat, script: seq<Choice>, now: int)
      requires db.Valid() && i < |db.users| && IsOp(IntentAt(db.users, i), k)
      modifies this`failures, db`users, db`templates, adapter`inbounds
      ensures db.Valid()
      ensures var w := WorkOf(old(db.users)[i], k);
              var (o, n) := Finish(w, Start(w), old(adapter.State()), script);
              && adapter.State() == n
              && db.users == WithIntentAt(old(db.users), i, AfterOutcome(IntentAt(old(db.users), i), k, o, options, now))
              && var t := old(db.users)[i].template;
                 (db.templates, failures) == Tracked(old(db.templates), t, IsCompatible(old(db.templates), t), old(failures), o)
      ensures var a := old(db.users)[i].account.intent;
              OptionsOk(options) && Holds(a, k, options.owner) && a.ops[k].revision == a.desiredRevision ==>
                Carried(old(db.users)[i], db.users[i], k, old(adapter.State()), adapter.State(), script, options.maxRetry, now)
    {
      hide Finish, PortsDistinct, IsCompatible, FinishLeased, Intent.Confirm, Later, Carried;
      ghost var before, n := db.users[i], adapter.State();
      var u := db.users[i];
      var w := WorkOf(u, k);
      var compatible := IsCompatible(db.templates, u.template);
      var session := new Session(adapter, script);
      var o := session.Handle(w);
      match o {
        case Confirm(present, version) =>
          var _ := db.ConfirmSync(i, k, options.owner, version, present);
          failures := 0;
        case Retry(_) => RetrySync(i, k, compatible, o, now);
        case RetryLater(_) => db.FinishSync(i, k, options.owner, Later(u.account.intent.ops[k].attempts, now, options));
        case GiveUp(_) => db.FinishSync(i, k, options.owner, Fail);
        case Abandon => assert WithIntentAt(db.users, i, u.account.intent) == db.users;
      }
      ghost var a := before.account.intent;
      if OptionsOk(options) && Holds(a, k, options.owner) && a.ops[k].revision == a.desiredRevision {
        AttemptIsCarried(before, db.users[i], k, n, script, options, now);
      }
    }

    /** Notes what the failure says about the template, then gives up or tries again later. */
    method RetrySync(i: nat, k: nat, compatible: bool, o: Outcome, now: int)
      requires db.Valid() && i < |db.users| && IsOp(IntentAt(db.users, i), k) && o.Retry?
      modifies this`failures, db`users, db`templates
      ensures db.Valid()
      ensures db.users == WithIntentAt(old(db.users), i, AfterOutcome(IntentAt(old(db.users), i), k, o, options, now))
      ensures (db.templates, failures) == Tracked(old(db.templates), old(db.users)[i].template, compatible, old(failures), o)
    {
      hide WaitMillis, PortsDistinct, FinishLeased;
      TrackDrift(db.users[i].template, compatible, o.cause.kind);
      var attempts := db.users[i].account.intent.ops[k].attempts;
      if IsPermanent(o, attempts) {
        db.FinishSync(i, k, options.owner, Fail);
      } else {
        db.FinishSync(i, k, options.owner, Later(attempts, now, options));
      }
    }

    method TrackDrift(template: nat, compatible: bool, kind: ErrorKind)
      modifies this`failures, db`templates
      ensures (db.templates, failures) == Tracked(old(db.templates), template, compatible, old(failures), Retry(Cause(kind, false)))
    {
      match kind {
        case IncompatibleProfile | UnsupportedProtocol | ProfileNotFound | VersionMismatch =>
          db.SetTemplateCompatibility(template, Incompatible);
        case InstanceUnavailable | DeadlineExceeded =>
          failures := failures + 1;
          if failures >= UNREACHABLE_THRESHOLD && compatible {
            db.SetTemplateCompatibility(template, Unreachable);
          }
        case _ =>
      }
    }

    /** Leases what is due first and carries it out; None exactly when nothing is due. */
    method TakeUp(script: seq<Choice>, now: int) returns (taken: Option<nat>)
      requires db.Valid() && AllInv(db.users) && OptionsOk(options)
      modifies this`failures, db`users, db`templates, adapter`inbounds
      ensures db.Valid() && Worsened(old(db.templates), db.templates)
      ensures taken.None? ==> db.users == old(db.users) && db.templates == old(db.templates) && adapter.State() == old(adapter.State())
      ensures taken.None? <==> forall i: nat, k: nat :: !Leasable(old(db.users), old(db.templates), i, k, now)
      ensures taken.Some? ==> TookUp(old(db.users), db.users, taken.value, old(adapter.State()), adapter.State(), script, options, now) &&
                              Projectable(old(db.templates), old(db.users)[taken.value].template)
      ensures taken.Some? && !Complains(old(db.users)[taken.value], old(adapter.State()), script) ==> db.templates == old(db.templates)
    {
      hide Finish, Inv, AfterOutcome, Tracked, PortsDistinct, NotLater, Worsened, TookUp, LeaseOp, Leasable, Due, Complains;
      ghost var before, n := db.users, adapter.State();
      var work := db.LeaseDueSync(options.owner, now, options.lease);
      NothingWorsened(db.templates);
      if work.None? { return None; }
      var (i, k) := work.value;
      LeasableIs(before, db.templates, i, k, now);
      LeasedIsTaken(before, i, k, options, now);
      ghost var mid, w := db.users, WorkOf(before[i], k);
      LeasedWork(before[i], k, options, now);
      TrackedWorsens(db.templates, before[i].template, failures, Finish(w, Start(w), n, script).0);
      HandleSync(i, k, script, now);
      IsTakenUp(before, mid, db.users, i, k, n, adapter.State(), script, options, now);
      return Some(i);
    }

    /** Takes up every operation that is due, each exactly once, and stops: at a fixed moment nothing that was tried is
        due again. Only a template found incompatible on the way keeps its users' remaining operations waiting. */
    method DrainOperations(fates: seq<seq<Choice>>, now: int) returns (order: seq<nat>, ghost nodes: seq<Node>)
      requires db.Valid() && AllInv(db.users) && OptionsOk(options)
      modifies this`failures, db`users, db`templates, adapter`inbounds
      ensures db.Valid() && AllInv(db.users) && Worsened(old(db.templates), db.templates)
      ensures Chronicle(old(db.users), db.users, order, nodes, fates, options, now)
      ensures |nodes| == |order| + 1 && nodes[0] == old(adapter.State()) && nodes[|order|] == adapter.State()
      ensures forall i :: i in order ==>
                i < |old(db.users)| && DueAt(old(db.users)[i], now) && Projectable(old(db.templates), old(db.users)[i].template)
      ensures forall i: nat :: i < |old(db.users)| && DueAt(old(db.users)[i], now) ==>
                i in order || !Projectable(db.templates, old(db.users)[i].template)
      ensures forall i: nat, k: nat :: !Leasable(db.users, db.templates, i, k, now)
      ensures NoComplaints(old(db.users), order, nodes, fates) ==> db.templates == old(db.templates)
      ensures AllTried(old(db.users), db.users, order, nodes, fates, options, now)
    {
      hide NoComplaints, Complains, AllTried;
      hide Inv, Handled, Leasable, Chapter, DueAt, Quiet, Worsened, Projectable, PortsDistinct, Chronicle, TookUp;
      order, nodes := [], [adapter.State()];
      ghost var before := db.users;
      NothingWorsened(db.templates);
      BlankChronicle(db.users, adapter.State(), fates, options, now);
      while true
        invariant db.Valid() && AllInv(db.users) && Worsened(old(db.templates), db.templates)
        invariant |nodes| == |order| + 1 && |db.users| == |before|
        invariant Chronicle(before, db.users, order, nodes, fates, options, now) && nodes[0] == old(adapter.State())
        invariant nodes[|order|] == adapter.State()
        invariant forall i :: i in order ==> i < |before| && DueAt(before[i], now) && Projectable(old(db.templates), before[i].template)
        invariant forall i :: i in order ==> i < |db.users| && Quiet(db.users[i].account.intent, now)
        invariant NoComplaints(before, order, nodes, fates) ==> db.templates == old(db.templates)
        decreases Left(|before|, order)
      {
        ghost var mid, templates := db.users, db.templates;
        var taken := TakeUp(Fate(fates, |order|), now);
        if taken.None? {
          StillDue(before, mid, order, nodes, fates, options, now, db.templates);
          ChronicleIsTried(before, mid, order, nodes, fates, options, now);
          return;
        }
        var i := taken.value;
        NextTurn(before, mid, db.users, order, nodes, fates, options, now, i, adapter.State());
        WorsensOn(old(db.templates), templates, db.templates, before[i].template);
        LeftShrinks(|before|, order, i);
        if NoComplaints(before, order + [i], nodes + [adapter.State()], fates) {
          FewerComplaints(before, order, nodes, fates, i, adapter.State());
        }
        order, nodes := order + [i], nodes + [adapter.State()];
      }
    }

    /** Takes up every removal that is due, each exactly once and nothing else, and stops. */
    method DrainRemovals(fates: seq<seq<Choice>>, now: int) returns (order: seq<nat>, ghost nodes: seq<Node>)
      requires queue.Valid() && OptionsOk(options)
      modifies queue, adapter`inbounds
      ensures queue.Valid()
      ensures Swept(old(queue.rows), queue.rows, db.users, order, nodes, fates, options, now)
      ensures |nodes| == |order| + 1 && nodes[0] == old(adapter.State()) && nodes[|order|] == adapter.State()
      ensures forall k: nat :: k in order <==> LeasableRemoval(old(queue.rows), db.templates, k, now)
      ensures forall k: nat :: !LeasableRemoval(queue.rows, db.templates, k, now)
      ensures AllCleaned(old(queue.rows), queue.rows, db.users, order, nodes, fates, options, now)
    {
      hide Removed, DueRemoval, QueueOk, OwnerOf, AllCleaned;
      order, nodes := [], [adapter.State()];
      ghost var before := queue.rows;
      while true
        invariant queue.Valid() && |nodes| == |order| + 1
        invariant Swept(before, queue.rows, db.users, order, nodes, fates, options, now)
        invariant nodes[0] == old(adapter.State()) && nodes[|order|] == adapter.State()
        invariant forall k :: k in order ==> LeasableRemoval(before, db.templates, k, now) && !DueRemoval(queue.rows[k], now)
        decreases Left(|before|, order)
      {
        ghost var mid := queue.rows;
        var work := queue.LeaseDueDriftRemoval(db.templates, options.owner, now, options.lease);
        if work.None? {
          forall k: nat | LeasableRemoval(before, db.templates, k, now) ensures k in order {
            assert !LeasableRemoval(mid, db.templates, k, now);
          }
          SweptIsCleaned(before, mid, db.users, order, nodes, fates, options, now);
          return;
        }
        var (k, reclaimed) := work.value;
        assert k !in order && mid[k] == before[k];
        LeftShrinks(|before|, order, k);
        HandleRemoval(k, reclaimed, Fate(fates, |order|), now, before[k]);
        RemovedIsQuiet(before[k], OwnerOf(db.users, before[k].tag), nodes[|order|], Fate(fates, |order|), options, now);
        NextSweep(before, mid, db.users, order, nodes, fates, options, now, k, queue.rows[k], adapter.State());
        assert queue.rows == mid[k := queue.rows[k]];
        order, nodes := order + [k], nodes + [adapter.State()];
      }
    }

    /** One pass over both queues: what it reports is how many records it took up, and each was taken up once. */
    method Drain(fates: seq<seq<Choice>>, driftFates: seq<seq<Choice>>, now: int)
      returns (processed: nat, ghost order: seq<nat>, ghost nodes: seq<Node>, ghost swept: seq<nat>, ghost cleaned: seq<Node>)
      requires db.Valid() && AllInv(db.users) && queue.Valid() && OptionsOk(options)
      modifies this`failures, db`users, db`templates, queue, adapter`inbounds
      ensures db.Valid() && AllInv(db.users) && queue.Valid() && processed == |order| + |swept|
      ensures |nodes| == |order| + 1 && |cleaned| == |swept| + 1
      ensures nodes[0] == old(adapter.State()) && nodes[|order|] == cleaned[0] && cleaned[|swept|] == adapter.State()
      ensures Chronicle(old(db.users), db.users, order, nodes, fates, options, now)
      ensures Swept(old(queue.rows), queue.rows, db.users, swept, cleaned, driftFates, options, now)
      ensures forall i: nat :: i < |old(db.users)| && DueAt(old(db.users)[i], now) ==>
                i in order || !Projectable(db.templates, old(db.users)[i].template)
      ensures forall k: nat :: k in swept <==> LeasableRemoval(old(queue.rows), db.templates, k, now)
      ensures NoComplaints(old(db.users), order, nodes, fates) ==> db.templates == old(db.templates)
      ensures forall i: nat, k: nat :: !Leasable(db.users, db.templates, i, k, now)
      ensures forall k: nat :: !LeasableRemoval(queue.rows, db.templates, k, now)
      ensures AllTried(old(db.users), db.users, order, nodes, fates, options, now)
      ensures AllCleaned(old(queue.rows), queue.rows, db.users, swept, cleaned, driftFates, options, now)
    {
      hide AllTried, AllCleaned;
      hide Inv, Chronicle, Swept, DueAt, Projectable, Leasable, LeasableRemoval, NoComplaints, QueueOk, PortsDistinct, Worsened;
      var taken, swiped;
      taken, nodes := DrainOperations(fates, now);
      swiped, cleaned := DrainRemovals(driftFates, now);
      order, swept := taken, swiped;
      processed := |taken| + |swiped|;
    }

    /** Carries out a leased removal and writes down what came of it. */
    method HandleRemoval(k: nat, reclaimed: bool, script: seq<Choice>, now: int, ghost before: Removal)
      requires queue.Valid() && k < |queue.rows| && reclaimed == (before.state == OpState.Leased)
      requires queue.rows[k] == before.(state := OpState.Leased, lease := Some(Lease(options.owner, now + options.lease)))
      modifies queue, adapter`inbounds
      ensures queue.Valid() && |queue.rows| == |old(queue.rows)|
      ensures var (r, n) := Removed(before, OwnerOf(db.users, before.tag), old(adapter.State()), script, options, now);
              queue.rows == old(queue.rows)[k := r] && adapter.State() == n
      ensures OptionsOk(options) ==>
                Cleaned(before, queue.rows[k], OwnerOf(db.users, before.tag), old(adapter.State()), adapter.State(), script, options.maxRetry, now)
    {
      hide Finish, WaitMillis, QueueOk, OwnerOf, Finished, Cleaned;
      ghost var n := adapter.State();
      var r := queue.rows[k];
      var w := Drift(r.tag, r.whole, r.identity, OwnerOf(db.users, r.tag), reclaimed);
      var session := new Session(adapter, script);
      var o := session.HandleDriftRemoval(w);
      WriteRemoval(k, o, now);
      if OptionsOk(options) { RemovedIsCleaned(before, OwnerOf(db.users, before.tag), n, script, options, now); }
    }

    /** Completes, puts off or gives up a removal; any other ending leaves its row alone. */
    method WriteRemoval(k: nat, o: Outcome, now: int)
      requires queue.Valid() && k < |queue.rows|
      modifies queue
      ensures queue.Valid()
      ensures queue.rows == old(queue.rows)[k := AfterRemoval(old(queue.rows)[k], o, options, now)]
    {
      hide Finish, WaitMillis, QueueOk, Finished;
      var r := queue.rows[k];
      match o {
        case Confirm(_, _) => queue.FinishDriftRemoval(k, options.owner, Gone);
        case Retry(_) =>
          if IsPermanent(o, r.attempts) {
            queue.FinishDriftRemoval(k, options.owner, Hopeless);
          } else {
            queue.FinishDriftRemoval(k, options.owner, Again(r.attempts + 1, now + WaitMillis(r.attempts + 1, options.maxRetry)));
          }
        case _ => assert queue.rows == queue.rows[k := r];
      }
    }
  }

  /** One turn of the loop, seen from the tables. */
  ghost predicate TookUp(before: seq<User>, after: seq<User>, i: nat, n: Node, n': Node, script: seq<Choice>, options: Options, now: int) {
    && i < |before| && |before[i].account.intent.ops| > 0 && DueAt(before[i], now)
    && var (b, m) := Handled(before[i], LastOp(before[i]), n, script, options, now);
       && n' == m && after == WithIntentAt(before, i, b) && Inv(b) && Quiet(b, now)
  }

  function Left(n: nat, order: seq<nat>): set<nat> { set i | 0 <= i < n && i !in order }

  lemma LeftShrinks(n: nat, order: seq<nat>, i: nat)
    requires i < n && i !in order
    ensures Left(n, order + [i]) < Left(n, order)
  {
    assert i in Left(n, order) && i !in Left(n, order + [i]);
    assert forall j :: j in Left(n, order + [i]) ==> j in Left(n, order);
  }

  lemma NothingWorsened(templates: seq<Template>)
    ensures Worsened(templates, templates)
  {
  }

  lemma BlankChronicle(users: seq<User>, n: Node, fates: seq<seq<Choice>>, options: Options, now: int)
    ensures Chronicle(users, users, [], [n], fates, options, now)
  {
  }

  lemma LeasableIs(users: seq<User>, templates: seq<Template>, i: nat, k: nat, now: int)
    requires Leasable(users, templates, i, k, now)
    ensures i < |users| && IsOp(IntentAt(users, i), k) && Due(IntentAt(users, i).ops[k], now) && Projectable(templates, users[i].template)
  {
  }

  lemma LeasedIsTaken(users: seq<User>, i: nat, k: nat, options: Options, now: int)
    requires i < |users| && IsOp(IntentAt(users, i), k) && Due(IntentAt(users, i).ops[k], now)
    ensures LeaseOp(IntentAt(users, i), k, options.owner, now, options.lease) == Some(Taken(IntentAt(users, i), k, options, now))
  {
  }

  lemma IsTakenUp(before: seq<User>, mid: seq<User>, after: seq<User>, i: nat, k: nat, n: Node, n': Node,
                  script: seq<Choice>, options: Options, now: int)
    requires AllInv(before) && OptionsOk(options)
    requires i < |before| && IsOp(IntentAt(before, i), k) && Due(IntentAt(before, i).ops[k], now)
    requires mid == WithIntentAt(before, i, Taken(IntentAt(before, i), k, options, now))
    requires var w := WorkOf(before[i], k);
             var (o, m) := Finish(w, Start(w), n, script);
             n' == m && after == WithIntentAt(mid, i, AfterOutcome(IntentAt(mid, i), k, o, options, now))
    ensures TookUp(before, after, i, n, n', script, options, now)
    ensures var w := WorkOf(before[i], k); Complains(before[i], n, script) <==> Finish(w, Start(w), n, script).0.Retry?
  {
    hide Finish, AfterOutcome, Inv, Evolves;
    HandledIsQuiet(before[i], k, n, script, options, now);
    assert DueAt(before[i], now);
  }

  /** What is loaded with the lease is what was there before it. */
  lemma LeasedWork(u: User, k: nat, options: Options, now: int)
    requires IsOp(u.account.intent, k)
    ensures WorkOf(u.(account := u.account.(intent := Taken(u.account.intent, k, options, now))), k) == WorkOf(u, k)
  {
  }

  lemma WorsensOn(a: seq<Template>, b: seq<Template>, c: seq<Template>, t: nat)
    requires Worsened(a, b) && Worsened(b, c)
    ensures Worsened(a, c) && (Projectable(b, t) ==> Projectable(a, t))
  {
  }

  /** Who has been taken up is quiet and who is due has not, so a turn adds a chapter. */
  lemma NextTurn(before: seq<User>, mid: seq<User>, after: seq<User>, order: seq<nat>, nodes: seq<Node>, fates: seq<seq<Choice>>,
                 options: Options, now: int, i: nat, n: Node)
    requires Chronicle(before, mid, order, nodes, fates, options, now) && AllInv(mid)
    requires forall j :: j in order ==> j < |mid| && Quiet(mid[j].account.intent, now)
    requires TookUp(mid, after, i, nodes[|order|], n, Fate(fates, |order|), options, now)
    ensures i !in order && i < |before| == |mid| == |after| && before[i] == mid[i] && DueAt(before[i], now)
    ensures Chronicle(before, after, order + [i], nodes + [n], fates, options, now) && AllInv(after)
    ensures forall j :: j in order + [i] ==> j < |after| && Quiet(after[j].account.intent, now)
  {
    assert i !in order;
    hide Handled, Inv;
    NextChapter(before, mid, order, nodes, fates, options, now, i, after[i].account.intent, n);
  }

  /** When nothing can be leased any more, whoever was due and not taken up waits for its template. */
  lemma StillDue(before: seq<User>, after: seq<User>, order: seq<nat>, nodes: seq<Node>, fates: seq<seq<Choice>>,
                 options: Options, now: int, templates: seq<Template>)
    requires Chronicle(before, after, order, nodes, fates, options, now)
    requires forall i: nat, k: nat :: !Leasable(after, templates, i, k, now)
    ensures forall i: nat :: i < |before| && DueAt(before[i], now) ==> i in order || !Projectable(templates, before[i].template)
  {
    hide Chapter;
    forall i: nat | i < |before| && DueAt(before[i], now) && i !in order
      ensures !Projectable(templates, before[i].template)
    {
      var k :| 0 <= k < |before[i].account.intent.ops| && Due(before[i].account.intent.ops[k], now);
      assert !Leasable(after, templates, i, k, now);
    }
  }
}
