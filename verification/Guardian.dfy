/** An inbound that listens is never left without its own managed client. The removal of a client is two calls, a listing
    for the guard and the deletion, and anything may happen in between. */
module Guardian {
  import opened Domain
  import opened Xray
  import opened Synchronizer

  /** The inbound, if it is there, holds its expected client or that client's transition identity. */
  predicate Guarded(n: Node, tag: string, expected: string) {
    tag in n.inbounds ==>
      expected in n.inbounds[tag].clients || RotationSafetyId(expected) in n.inbounds[tag].clients
  }

  /** Work on this inbound names its own identity; a drift removal may also have found no owner at all. */
  predicate SpeaksFor(w: Work, tag: string, expected: string) {
    w.tag == tag ==> w.expected == expected || (w.Drift? && w.expected == "")
  }

  // ---- a removal in two calls ----

  datatype Removal = Removal(tag: string, id: string, expected: string)

  predicate Survives(n: Node, r: Removal) {
    r.tag in n.inbounds ==> HasSurvivor(n.inbounds[r.tag].clients, r.id, r.expected)
  }

  /** What the guard makes of its listing: it lets a client go that is not there, or that leaves a survivor behind. */
  predicate Passes(n: Node, r: Removal) {
    && IsPanelNamespace(r.tag) && r.expected != ""
    && if r.tag in n.inbounds then r.id in n.inbounds[r.tag].clients ==> Survives(n, r) else !n.strict
  }

  /** The deletion itself asks nothing. */
  function Deleted(n: Node, r: Removal): Node {
    if r.tag in n.inbounds && r.id in n.inbounds[r.tag].clients then
      Put(n, r.tag, n.inbounds[r.tag].(clients := n.inbounds[r.tag].clients - {r.id}))
    else n
  }

  /** With nothing between them the two calls are the one removal of `Xray`. */
  lemma TwoCallsAreOne(n: Node, r: Removal)
    ensures (if Passes(n, r) then Deleted(n, r) else n) == Perform(n, RemoveUser(r.tag, r.id, r.expected)).0
  {
  }

  /** A deletion keeps the inbound guarded if and only if there is a survivor at that moment, whatever the guard saw. */
  lemma DeletionKeepsExactlyWhen(n: Node, r: Removal)
    requires Guarded(n, r.tag, r.expected)
    ensures Guarded(Deleted(n, r), r.tag, r.expected) <==> Survives(n, r)
  {
  }

  // ---- runs ----

  /** The node, and the removals whose guard has passed and whose deletion is still to come, one for each caller. */
  datatype World = World(node: Node, open: map<nat, Removal>)

  /** Anything that can happen: one step of some worker (a stale one included) that removes no client; the listing of a
      removal; its deletion, or the loss of it; a restart; somebody else adding a client. */
  datatype Event =
    | Move(work: Work, pc: Pc, choice: Choice)
    | Listing(caller: nat, work: Work, pc: Pc)
    | Deletion(caller: nat, applied: bool)
    | Restart
    | Inject(tag: string, id: string)

  predicate Removes(w: Work, pc: Pc) {
    Fits(w, pc) && !pc.End? && Emit(w, pc).Call? && Emit(w, pc).rpc.RemoveUser?
  }

  predicate Creates(w: Work, pc: Pc) {
    Fits(w, pc) && !pc.End? && Emit(w, pc).Call? && Emit(w, pc).rpc.CreateInbound?
  }

  function RemovalOf(w: Work, pc: Pc): Removal
    requires Removes(w, pc)
  {
    var rpc := Emit(w, pc).rpc;
    Removal(rpc.tag, rpc.id, rpc.expected)
  }

  predicate Meaningful(e: Event) {
    match e
    case Move(w, pc, _) => Fits(w, pc) && !pc.End? && !Removes(w, pc)
    case Listing(_, w, pc) => Removes(w, pc)
    case _ => true
  }

  predicate AllMeaningful(events: seq<Event>) { forall i :: 0 <= i < |events| ==> Meaningful(events[i]) }

  predicate Possible(e: Event, tag: string, expected: string) {
    Meaningful(e) && (e.Move? || e.Listing? ==> SpeaksFor(e.work, tag, expected))
  }

  predicate AllPossible(events: seq<Event>, tag: string, expected: string) {
    forall i :: 0 <= i < |events| ==> Possible(events[i], tag, expected)
  }

  function Injected(n: Node, tag: string, id: string): Node {
    if tag in n.inbounds && id !in n.inbounds[tag].clients then
      Put(n, tag, n.inbounds[tag].(clients := n.inbounds[tag].clients[id := Foreign]))
    else n
  }

  function Happen(w: World, e: Event): World
    requires Meaningful(e)
  {
    match e
    case Move(work, pc, c) => w.(node := Step(work, pc, w.node, c).1)
    case Listing(k, work, pc) =>
      var r := RemovalOf(work, pc);
      w.(open := if Passes(w.node, r) then w.open[k := r] else w.open - {k})
    case Deletion(k, applied) =>
      World(if k in w.open && applied then Deleted(w.node, w.open[k]) else w.node, w.open - {k})
    case Restart => w.(node := w.node.(inbounds := map[]))
    case Inject(tag, id) => w.(node := Injected(w.node, tag, id))
  }

  function After(w: World, events: seq<Event>): World
    requires AllMeaningful(events)
    decreases |events|
  {
    if events == [] then w else After(Happen(w, events[0]), events[1..])
  }

  /** Every removal under way on this inbound speaks for it. */
  predicate OpenOk(w: World, tag: string, expected: string) {
    forall k :: k in w.open && w.open[k].tag == tag ==> w.open[k].expected == expected
  }

  /** The inbound keeps a managed client in this state and in every later one. */
  predicate AlwaysGuarded(w: World, events: seq<Event>, tag: string, expected: string)
    requires AllMeaningful(events)
    decreases |events|
  {
    Guarded(w.node, tag, expected) &&
    (events != [] ==> AlwaysGuarded(Happen(w, events[0]), events[1..], tag, expected))
  }

  /** The event is no deletion on this inbound, or it finds a survivor. */
  predicate Spares(w: World, e: Event, tag: string) {
    e.Deletion? && e.applied && e.caller in w.open && w.open[e.caller].tag == tag ==> Survives(w.node, w.open[e.caller])
  }

  predicate AllSpare(w: World, events: seq<Event>, tag: string)
    requires AllMeaningful(events)
    decreases |events|
  {
    events != [] ==> Spares(w, events[0], tag) && AllSpare(Happen(w, events[0]), events[1..], tag)
  }

  // ---- what a step that removes no client does to the inbound ----

  predicate Respectful(rpc: Rpc, tag: string, expected: string) {
    !rpc.RemoveUser? && (rpc.CreateInbound? && rpc.tag == tag ==> rpc.client == expected)
  }

  lemma RespectfulKeeps(n: Node, rpc: Rpc, tag: string, expected: string)
    requires Guarded(n, tag, expected) && Respectful(rpc, tag, expected)
    ensures Guarded(Perform(n, rpc).0, tag, expected)
  {
  }

  lemma RespectfulSpares(n: Node, rpc: Rpc, r: Removal)
    requires Survives(n, r) && Respectful(rpc, r.tag, r.expected)
    requires rpc.CreateInbound? && rpc.tag == r.tag ==> r.id != r.expected
    ensures Survives(Perform(n, rpc).0, r)
  {
  }

  /** The node after such a step: as it was, or after one respectful call, and a creation is one of the work's tag. */
  lemma MoveIsRespectful(w: Work, pc: Pc, n: Node, c: Choice, tag: string, expected: string)
    requires Fits(w, pc) && !pc.End? && !Removes(w, pc) && SpeaksFor(w, tag, expected)
    ensures var n' := Step(w, pc, n, c).1;
            n' == n ||
            (Emit(w, pc).Call? && Respectful(Emit(w, pc).rpc, tag, expected) && n' == Perform(n, Emit(w, pc).rpc).0 &&
             (Emit(w, pc).rpc.CreateInbound? ==> Emit(w, pc).rpc.tag == w.tag))
  {
    hide Perform, Next;
  }

  lemma MoveKeeps(w: Work, pc: Pc, n: Node, c: Choice, tag: string, expected: string)
    requires Fits(w, pc) && !pc.End? && !Removes(w, pc) && SpeaksFor(w, tag, expected) && Guarded(n, tag, expected)
    ensures Guarded(Step(w, pc, n, c).1, tag, expected)
  {
    hide Step, Emit, Perform, Guarded, Respectful, SpeaksFor;
    MoveIsRespectful(w, pc, n, c, tag, expected);
    if Emit(w, pc).Call? && Respectful(Emit(w, pc).rpc, tag, expected) {
      RespectfulKeeps(n, Emit(w, pc).rpc, tag, expected);
    }
  }

  lemma MoveSpares(w: Work, pc: Pc, n: Node, c: Choice, r: Removal)
    requires Fits(w, pc) && !pc.End? && !Removes(w, pc) && SpeaksFor(w, r.tag, r.expected) && Survives(n, r)
    requires Creates(w, pc) && w.tag == r.tag ==> r.id != r.expected
    ensures Survives(Step(w, pc, n, c).1, r)
  {
    hide Step, Emit, Perform, Survives, Respectful, SpeaksFor;
    MoveIsRespectful(w, pc, n, c, r.tag, r.expected);
    if Emit(w, pc).Call? && Respectful(Emit(w, pc).rpc, r.tag, r.expected) && Step(w, pc, n, c).1 != n {
      RespectfulSpares(n, Emit(w, pc).rpc, r);
    }
  }

  lemma ListingSpeaks(w: Work, pc: Pc, n: Node, tag: string, expected: string)
    requires Removes(w, pc) && SpeaksFor(w, tag, expected)
    ensures var r := RemovalOf(w, pc); r.tag == tag && Passes(n, r) ==> r.expected == expected
  {
    hide Next;
  }

  // ---- the exact condition ----

  /** One event: the inbound stays guarded exactly if the event spares a survivor. */
  lemma HappenKeepsExactlyWhen(w: World, e: Event, tag: string, expected: string)
    requires OpenOk(w, tag, expected) && Guarded(w.node, tag, expected) && Possible(e, tag, expected)
    ensures OpenOk(Happen(w, e), tag, expected)
    ensures Guarded(Happen(w, e).node, tag, expected) <==> Spares(w, e, tag)
  {
    hide Emit, Next, Step, SpeaksFor, Passes, RemovalOf, Removes, HasSurvivor;
    match e
    case Move(work, pc, c) => MoveKeeps(work, pc, w.node, c, tag, expected);
    case Listing(_, work, pc) => ListingSpeaks(work, pc, w.node, tag, expected);
    case Deletion(k, _) => if k in w.open && w.open[k].tag == tag { DeletionKeepsExactlyWhen(w.node, w.open[k]); }
    case _ =>
  }

  /** Over every interleaving of the calls of current and stale workers and drift removals, with arbitrary failures,
      restarts and injected clients: the inbound keeps one of its two managed clients for as long as it exists, if and
      only if every deletion on it finds a survivor. */
  lemma {:induction false} NeverEmptyExactlyWhen(w: World, events: seq<Event>, tag: string, expected: string)
    requires OpenOk(w, tag, expected) && Guarded(w.node, tag, expected) && AllPossible(events, tag, expected)
    ensures AlwaysGuarded(w, events, tag, expected) <==> AllSpare(w, events, tag)
    decreases |events|
  {
    hide Happen, OpenOk, Guarded, Spares, Removes, SpeaksFor;
    if events != [] {
      var e := events[0];
      HappenKeepsExactlyWhen(w, e, tag, expected);
      if Spares(w, e, tag) {
        NeverEmptyExactlyWhen(Happen(w, e), events[1..], tag, expected);
      }
    }
  }

  // ---- runs that are safe by the order of their calls ----

  /** The removal of that client from the inbound is under way. */
  predicate Aims(w: World, tag: string, id: string) {
    exists k :: k in w.open && w.open[k].tag == tag && w.open[k].id == id
  }

  predicate OpenSurvive(w: World, tag: string) {
    forall k :: k in w.open && w.open[k].tag == tag ==> Survives(w.node, w.open[k])
  }

  /** Every removal under way on this inbound has a survivor, and they do not aim at both managed clients. */
  predicate Calm(w: World, tag: string, expected: string) {
    && OpenOk(w, tag, expected) && Guarded(w.node, tag, expected) && OpenSurvive(w, tag)
    && !(Aims(w, tag, expected) && Aims(w, tag, RotationSafetyId(expected)))
  }

  /** A removal of one managed client is not listed for while one of the other is under way, and the inbound is not
      created anew while a removal of its expected client is under way. */
  predicate Orderly(w: World, e: Event, tag: string, expected: string)
    requires Meaningful(e)
  {
    match e
    case Move(work, pc, _) => Creates(work, pc) && work.tag == tag ==> !Aims(w, tag, expected)
    case Listing(_, work, pc) =>
      var r := RemovalOf(work, pc);
      r.tag == tag ==>
        && (r.id == expected ==> !Aims(w, tag, RotationSafetyId(expected)))
        && (r.id == RotationSafetyId(expected) ==> !Aims(w, tag, expected))
    case _ => true
  }

  predicate AllOrderly(w: World, events: seq<Event>, tag: string, expected: string)
    requires AllMeaningful(events)
    decreases |events|
  {
    events != [] ==> Orderly(w, events[0], tag, expected) && AllOrderly(Happen(w, events[0]), events[1..], tag, expected)
  }

  /** A client is deleted without harm to the survivors of any removal that does not aim at the other managed client. */
  lemma DeletionSpares(n: Node, d: Removal, r: Removal)
    requires d.tag == r.tag && d.expected == r.expected && Survives(n, d) && Survives(n, r) && Guarded(n, d.tag, d.expected)
    requires !(d.id == d.expected && r.id == RotationSafetyId(d.expected))
    requires !(r.id == d.expected && d.id == RotationSafetyId(d.expected))
    ensures Survives(Deleted(n, d), r)
  {
  }

  lemma InjectionSpares(n: Node, tag: string, id: string, r: Removal)
    requires Survives(n, r)
    ensures Survives(Injected(n, tag, id), r)
  {
  }

  /** The guard promises a survivor even where it lets a client go that is not there, as long as the inbound is guarded. */
  lemma GuardMeansSurvivor(n: Node, r: Removal)
    requires Passes(n, r) && Guarded(n, r.tag, r.expected)
    ensures Survives(n, r)
  {
  }

  lemma OpenSurviveKept(w: World, e: Event, tag: string, expected: string)
    requires Calm(w, tag, expected) && Possible(e, tag, expected) && Orderly(w, e, tag, expected)
    ensures OpenSurvive(Happen(w, e), tag)
  {
    hide Emit, Next, Step, SpeaksFor, Passes, Removes, Creates, Survives, Deleted, Injected, RemovalOf, Guarded;
    var w' := Happen(w, e);
    forall k | k in w'.open && w'.open[k].tag == tag ensures Survives(w'.node, w'.open[k]) {
      var r := w'.open[k];
      match e
      case Move(work, pc, c) => MoveSpares(work, pc, w.node, c, r);
      case Listing(caller, work, pc) =>
        ListingSpeaks(work, pc, w.node, tag, expected);
        if k == caller { GuardMeansSurvivor(w.node, r); }
      case Deletion(caller, applied) =>
        if caller in w.open && applied { DeletionAmong(w, caller, k, tag, expected); }
      case Restart => EmptySpares(w'.node, r);
      case Inject(other, id) => InjectionSpares(w.node, other, id, r);
    }
  }

  lemma EmptySpares(n: Node, r: Removal)
    requires n.inbounds == map[]
    ensures Survives(n, r)
  {
  }

  lemma DeletionAmong(w: World, caller: nat, k: nat, tag: string, expected: string)
    requires Calm(w, tag, expected) && caller in w.open && k in w.open && w.open[k].tag == tag
    ensures Survives(Deleted(w.node, w.open[caller]), w.open[k])
  {
    hide Survives, Guarded;
    var d, r := w.open[caller], w.open[k];
    if d.tag == tag {
      assert Aims(w, tag, d.id) && Aims(w, tag, r.id);
      DeletionSpares(w.node, d, r);
    } else {
      DeletionElsewhere(w.node, d, r);
    }
  }

  lemma DeletionElsewhere(n: Node, d: Removal, r: Removal)
    requires d.tag != r.tag && Survives(n, r)
    ensures Survives(Deleted(n, d), r)
  {
  }

  /** Only a listing can add an aim. */
  lemma NewAims(w: World, e: Event, tag: string, id: string)
    requires Meaningful(e) && Aims(Happen(w, e), tag, id)
    ensures Aims(w, tag, id) || (e.Listing? && RemovalOf(e.work, e.pc).tag == tag && RemovalOf(e.work, e.pc).id == id)
  {
    hide Emit, Next, Step, Passes, Deleted, Injected;
  }

  lemma OrderlyKeepsCalm(w: World, e: Event, tag: string, expected: string)
    requires Calm(w, tag, expected) && Possible(e, tag, expected) && Orderly(w, e, tag, expected)
    ensures Calm(Happen(w, e), tag, expected)
  {
    hide Emit, Next, Step, SpeaksFor, Passes, Removes, Creates, Survives, Deleted, Injected, Guarded;
    OpenSurviveKept(w, e, tag, expected);
    HappenKeepsExactlyWhen(w, e, tag, expected);
    var w' := Happen(w, e);
    if Aims(w', tag, expected) { NewAims(w, e, tag, expected); }
    if Aims(w', tag, RotationSafetyId(expected)) { NewAims(w, e, tag, RotationSafetyId(expected)); }
  }

  /** So a run that keeps this order never leaves the inbound without its own client. */
  lemma {:induction false} OrderlyRunsNeverEmpty(w: World, events: seq<Event>, tag: string, expected: string)
    requires Calm(w, tag, expected) && AllPossible(events, tag, expected) && AllOrderly(w, events, tag, expected)
    ensures AlwaysGuarded(w, events, tag, expected)
    decreases |events|
  {
    hide Happen, OpenOk, OpenSurvive, Guarded, Removes, SpeaksFor, Orderly, Aims;
    if events != [] {
      OrderlyKeepsCalm(w, events[0], tag, expected);
      OrderlyRunsNeverEmpty(Happen(w, events[0]), events[1..], tag, expected);
    }
  }

  /** One process makes the two calls of a removal back to back, since it handles one record at a time. */
  predicate BackToBack(events: seq<Event>)
    decreases |events|
  {
    events != [] ==>
      if events[0].Listing? then
        |events| >= 2 && events[1].Deletion? && events[1].caller == events[0].caller && BackToBack(events[2..])
      else BackToBack(events[1..])
  }

  lemma {:induction false} OneProcessIsOrderly(w: World, events: seq<Event>, tag: string, expected: string)
    requires w.open == map[] && AllMeaningful(events) && BackToBack(events)
    ensures AllOrderly(w, events, tag, expected)
    decreases |events|
  {
    hide Meaningful, Passes, Deleted, Injected, RemovalOf;
    if events != [] {
      var e := events[0];
      var w' := Happen(w, e);
      if e.Listing? {
        var rest := events[1..];
        assert rest[0] == events[1] && rest[1..] == events[2..];
        OneProcessIsOrderly(Happen(w', rest[0]), events[2..], tag, expected);
      } else {
        OneProcessIsOrderly(w', events[1..], tag, expected);
      }
    }
  }

  /** So within one process no schedule of steps, failures, restarts and intruders leaves it without one. */
  lemma NeverEmpty(n: Node, events: seq<Event>, tag: string, expected: string)
    requires Guarded(n, tag, expected) && AllPossible(events, tag, expected) && BackToBack(events)
    ensures AlwaysGuarded(World(n, map[]), events, tag, expected)
  {
    hide Removes, Guarded, SpeaksFor;
    OneProcessIsOrderly(World(n, map[]), events, tag, expected);
    OrderlyRunsNeverEmpty(World(n, map[]), events, tag, expected);
  }

  // ---- what the order is for ----

  /** A removal of the old credential and one of the transition client, both listed for before either deletes. */
  function Race(rotation: Work, drift: Work): seq<Event> {
    [Listing(0, rotation, OldRemove), Listing(1, drift, DriftRemove), Deletion(0, true), Deletion(1, true)]
  }

  lemma AfterTwo(w: World, a: Event, b: Event, rest: seq<Event>)
    requires Meaningful(a) && Meaningful(b) && AllMeaningful(rest)
    ensures AllMeaningful([a, b] + rest) && After(w, [a, b] + rest) == After(Happen(Happen(w, a), b), rest)
  {
    hide Happen, Meaningful;
    var events := [a, b] + rest;
    assert events[1..] == [b] + rest && events[1..][1..] == rest;
  }

  lemma AfterFour(w: World, a: Event, b: Event, c: Event, d: Event)
    requires Meaningful(a) && Meaningful(b) && Meaningful(c) && Meaningful(d)
    ensures After(w, [a, b, c, d]) == Happen(Happen(Happen(Happen(w, a), b), c), d)
  {
    hide Happen, Meaningful;
    assert [a, b] + [c, d] == [a, b, c, d] && [c, d] + [] == [c, d];
    AfterTwo(w, a, b, [c, d]);
    AfterTwo(Happen(Happen(w, a), b), c, d, []);
  }

  lemma RaceIsPossible(rotation: Work, drift: Work)
    requires rotation.Sync? && drift.Drift? && !drift.whole && drift.tag == rotation.tag
    ensures Removes(rotation, OldRemove) && RemovalOf(rotation, OldRemove) == Removal(rotation.tag, rotation.expected, rotation.expected)
    ensures Removes(drift, DriftRemove) && RemovalOf(drift, DriftRemove) == Removal(drift.tag, drift.target, drift.expected)
  {
  }

  /** The inbound holds both managed clients; each removal sees the other one's client as its survivor. */
  lemma RaceEmpties(n: Node, rotation: Work, drift: Work)
    requires rotation.Sync? && drift == Drift(rotation.tag, false, Safety(rotation), rotation.expected, false)
    requires IsPanelNamespace(rotation.tag) && rotation.expected != "" && rotation.tag in n.inbounds
    requires rotation.expected in n.inbounds[rotation.tag].clients && Safety(rotation) in n.inbounds[rotation.tag].clients
    ensures AllPossible(Race(rotation, drift), rotation.tag, rotation.expected)
    ensures var n' := After(World(n, map[]), Race(rotation, drift)).node;
            rotation.tag in n'.inbounds && !Guarded(n', rotation.tag, rotation.expected)
  {
    hide Step, Next, Emit, After, Fits, Bound;
    RaceIsPossible(rotation, drift);
    var race := Race(rotation, drift);
    AfterFour(World(n, map[]), race[0], race[1], race[2], race[3]);
  }

  /** A removal that outlives its process: in between, the inbound is removed and created with the expected client alone. */
  function Late(rotation: Work, removal: Work): seq<Event> {
    [Listing(0, rotation, OldRemove), Move(removal, RemoveCall, CALM), Move(rotation, CreateCall, CALM), Deletion(0, true)]
  }

  lemma LateRemovalEmpties(n: Node, rotation: Work, removal: Work)
    requires rotation.Sync? && rotation.presence && removal.Sync? && !removal.presence && removal.tag == rotation.tag
    requires removal.expected == rotation.expected && IsPanelNamespace(rotation.tag) && rotation.expected != "" && rotation.tag in n.inbounds
    requires rotation.expected in n.inbounds[rotation.tag].clients && Safety(rotation) in n.inbounds[rotation.tag].clients
    requires !n.probes || !Bound(Drop(n, rotation.tag), rotation.port)
    ensures AllPossible(Late(rotation, removal), rotation.tag, rotation.expected)
    ensures var n' := After(World(n, map[]), Late(rotation, removal)).node;
            rotation.tag in n'.inbounds && n'.inbounds[rotation.tag].clients == map[]
  {
    hide Step, Next, Emit, After, Perform, Bound, Fits;
    LateIsPossible(rotation, removal);
    var late := Late(rotation, removal);
    AfterFour(World(n, map[]), late[0], late[1], late[2], late[3]);
    Recreated(n, rotation, removal);
  }

  lemma LateIsPossible(rotation: Work, removal: Work)
    requires rotation.Sync? && removal.Sync?
    ensures Removes(rotation, OldRemove) && RemovalOf(rotation, OldRemove) == Removal(rotation.tag, rotation.expected, rotation.expected)
    ensures Fits(removal, RemoveCall) && !Removes(removal, RemoveCall) && Fits(rotation, CreateCall) && !Removes(rotation, CreateCall)
  {
  }

  lemma Recreated(n: Node, creation: Work, removal: Work)
    requires creation.Sync? && removal.Sync? && creation.tag == removal.tag
    requires IsPanelNamespace(creation.tag) && creation.tag in n.inbounds && (!n.probes || !Bound(Drop(n, creation.tag), creation.port))
    ensures var n1 := Step(removal, RemoveCall, n, CALM).1;
            Step(creation, CreateCall, n1, CALM).1 ==
              Put(Drop(n, creation.tag), creation.tag, Inbound(creation.port, map[creation.expected := Version(creation.version)]))
  {
  }
}
