/** Which process of the node a template's compatibility was proved against. The generation counts processes; new
    users are admitted only on evidence of the current one. */
module Capability {
  import opened Domain
  import opened Metering

  datatype Compatibility = Unverified | Compatible | Incompatible | Unreachable

  /** Ports first..last of an address are what its users may be given. */
  datatype Template = Template(state: Compatibility, validated: Option<int>, revision: int, archived: bool,
                               address: string, first: int, last: int)

  /** `anchor` is the boot epoch the generation was last moved to; `uptime` the longest uptime seen since. */
  datatype Registry = Registry(anchor: Option<int>, generation: int, uptime: int, templates: seq<Template>)

  datatype Signal = Signal(boot: int, uptime: int, known: bool, suspected: bool)

  /** A validation's result: the template and revision it read, and the generation it was bound to. */
  datatype Validation = Validation(template: nat, revision: int, state: Compatibility, generation: int)

  const TOLERANCE: int := 1000

  // ---- transactions ----

  predicate IsRestart(r: Registry, s: Signal) {
    RestartConfirmed(r.anchor, s.boot, true, TOLERANCE) || (r.uptime > 0 && s.uptime < r.uptime) || s.suspected
  }

  function Advance(r: Registry, s: Signal): Registry {
    if !s.known then r
    else if r.anchor.None? then r.(anchor := Some(WholeSeconds(s.boot)), uptime := s.uptime)
    else if !IsRestart(r, s) then r.(uptime := if s.uptime > r.uptime then s.uptime else r.uptime)
    else r.(anchor := Some(WholeSeconds(s.boot)), generation := r.generation + 1, uptime := s.uptime)
  }

  predicate IsStale(t: Template, generation: int) {
    !t.archived && t.state == Compatible && t.validated != Some(generation)
  }

  /** The stale ones go back to unverified, all in one statement. */
  function Invalidate(r: Registry, generation: int): Registry {
    if generation <= 0 then r
    else r.(templates := seq(|r.templates|, i requires 0 <= i < |r.templates| =>
      var t := r.templates[i];
      if IsStale(t, generation) then t.(state := Unverified, validated := None, revision := t.revision + 1) else t))
  }

  predicate Accepts(r: Registry, v: Validation) {
    v.template < |r.templates| && r.templates[v.template].revision == v.revision && !r.templates[v.template].archived
  }

  function Complete(r: Registry, v: Validation, boot: Option<int>): Registry {
    if !Accepts(r, v) then r
    else
      var t := r.templates[v.template];
      r.(templates := r.templates[v.template :=
           t.(state := v.state, validated := if v.state == Compatible && v.generation > 0 then Some(v.generation) else None)],
         anchor := if r.anchor.None? then boot else r.anchor)
  }

  /** An edit or a request for revalidation. */
  function Unverify(r: Registry, template: nat, revision: int): Registry {
    if template >= |r.templates| || r.templates[template].revision != revision || r.templates[template].archived then r
    else r.(templates := r.templates[template := r.templates[template].(state := Unverified, revision := revision + 1)])
  }

  /** What a worker reports about a template; it never reports compatibility. */
  function Report(r: Registry, template: nat, incompatible: bool): Registry {
    if template >= |r.templates| then r
    else r.(templates := r.templates[template := r.templates[template].(state := if incompatible then Incompatible else Unreachable)])
  }

  function MarkHealthy(r: Registry, boot: Option<int>): Registry {
    r.(anchor := if r.anchor.None? then boot else r.anchor)
  }

  /** The gate of user creation. */
  predicate Admits(r: Registry, template: nat) {
    && template < |r.templates|
    && r.templates[template].state == Compatible && !r.templates[template].archived
    && r.generation > 0 && r.templates[template].validated.Some? && r.templates[template].validated.value > 0
    && r.templates[template].validated.value == r.generation
  }

  // ---- runs ----

  /** Verdicts wait between the moment they are bound to a generation and the moment they are committed. */
  datatype World = World(registry: Registry, bound: seq<Validation>)

  datatype Action =
    | Look(signal: Signal)
    | Bind(template: nat, revision: int, state: Compatibility)
    | Commit(verdict: nat, boot: Option<int>)
    | Sweep(generation: int)
    | Touch(template: nat, revision: int)
    | Blame(template: nat, incompatible: bool)
    | Healthy(boot: Option<int>)
    | Add(address: string, first: int, last: int)
    | Archive(template: nat)

  function Next(w: World, a: Action): World {
    var r := w.registry;
    match a
    case Look(signal) => w.(registry := Advance(r, signal))
    case Bind(template, revision, state) => w.(bound := w.bound + [Validation(template, revision, state, r.generation)])
    case Commit(k, boot) => if k < |w.bound| then w.(registry := Complete(r, w.bound[k], boot)) else w
    case Sweep(generation) => w.(registry := Invalidate(r, generation))
    case Touch(template, revision) => w.(registry := Unverify(r, template, revision))
    case Blame(template, incompatible) => w.(registry := Report(r, template, incompatible))
    case Healthy(boot) => w.(registry := MarkHealthy(r, boot))
    case Add(address, first, last) =>
      w.(registry := r.(templates := r.templates + [Template(Unverified, None, 0, false, address, first, last)]))
    case Archive(k) =>
      if k < |r.templates| then w.(registry := r.(templates := r.templates[k := r.templates[k].(archived := true)])) else w
  }

  function Run(w: World, actions: seq<Action>): World
    decreases |actions|
  {
    if actions == [] then w else Run(Next(w, actions[0]), actions[1..])
  }

  /** No evidence is from the future. */
  ghost predicate WorldOk(w: World) {
    && w.registry.generation >= 1
    && (forall i :: 0 <= i < |w.registry.templates| ==>
          w.registry.templates[i].validated.Some? ==> 1 <= w.registry.templates[i].validated.value <= w.registry.generation)
    && (forall k :: 0 <= k < |w.bound| ==> w.bound[k].generation <= w.registry.generation)
  }

  lemma StepKeeps(w: World, a: Action)
    requires WorldOk(w)
    ensures WorldOk(Next(w, a)) && w.registry.generation <= Next(w, a).registry.generation
    ensures |w.registry.templates| <= |Next(w, a).registry.templates|
  {
  }

  /** The generation never goes back, and no template is ever validated beyond it. */
  lemma {:induction false} GenerationNeverGoesBack(w: World, actions: seq<Action>)
    requires WorldOk(w)
    ensures WorldOk(Run(w, actions)) && w.registry.generation <= Run(w, actions).registry.generation
    decreases |actions|
  {
    if actions != [] {
      StepKeeps(w, actions[0]);
      GenerationNeverGoesBack(Next(w, actions[0]), actions[1..]);
    }
  }

  /** A compatible verdict for a template, bound to the generation it is committed at. */
  predicate Proves(w: World, a: Action, template: nat) {
    a.Commit? && a.verdict < |w.bound| && Accepts(w.registry, w.bound[a.verdict]) &&
    w.bound[a.verdict] == Validation(template, w.bound[a.verdict].revision, Compatible, w.registry.generation)
  }

  predicate EverProves(w: World, actions: seq<Action>, template: nat)
    decreases |actions|
  {
    actions != [] && (Proves(w, actions[0], template) || EverProves(Next(w, actions[0]), actions[1..], template))
  }

  predicate HasCurrentEvidence(r: Registry, template: nat) {
    template < |r.templates| && r.templates[template].validated == Some(r.generation)
  }

  /** The gate opens in one way only. */
  lemma StepOpensOnlyByProof(w: World, a: Action, template: nat)
    requires WorldOk(w) && !HasCurrentEvidence(w.registry, template)
    ensures HasCurrentEvidence(Next(w, a).registry, template) <==> Proves(w, a, template)
  {
  }

  /** Once a generation has no evidence for a template, the gate stays shut for it until a compatible validation
      bound to the generation of that very moment commits. */
  lemma {:induction false} GateStaysShut(w: World, actions: seq<Action>, template: nat)
    requires WorldOk(w) && !HasCurrentEvidence(w.registry, template)
    ensures !EverProves(w, actions, template) ==> !Admits(Run(w, actions).registry, template)
    decreases |actions|
  {
    if actions != [] {
      StepKeeps(w, actions[0]);
      StepOpensOnlyByProof(w, actions[0], template);
      if !Proves(w, actions[0], template) {
        GateStaysShut(Next(w, actions[0]), actions[1..], template);
      }
    }
  }

  /** An advance shuts the gate for every template. */
  lemma AdvanceShutsTheGate(w: World, s: Signal, template: nat)
    requires WorldOk(w)
    ensures var r := Advance(w.registry, s);
            && (r.generation > w.registry.generation <==> s.known && w.registry.anchor.Some? && IsRestart(w.registry, s))
            && (r.generation > w.registry.generation ==> !HasCurrentEvidence(r, template))
  {
  }

  /** A verdict is written exactly for a template that is not archived and has not been edited since it was read; it leaves
      evidence exactly if it is compatible, and says nothing about any other template. */
  lemma VerdictIsWrittenExactlyWhen(r: Registry, v: Validation, boot: Option<int>)
    ensures var g := Complete(r, v, boot);
            var open := v.template < |r.templates| && !r.templates[v.template].archived && r.templates[v.template].revision == v.revision;
            && |g.templates| == |r.templates| && g.generation == r.generation && g.uptime == r.uptime
            && (!open ==> g == r)
            && (open ==>
                  && g.anchor == (if r.anchor.Some? then r.anchor else boot)
                  && g.templates[v.template].state == v.state
                  && (g.templates[v.template].validated.Some? <==> v.state == Compatible && v.generation > 0)
                  && (g.templates[v.template].validated.Some? ==> g.templates[v.template].validated.value == v.generation))
            && (forall t :: 0 <= t < |r.templates| && t != v.template ==> g.templates[t] == r.templates[t])
  {
  }

  /** A validation that was under way when its template's evidence was taken back can no longer commit. */
  lemma TakenBackIsTakenAnew(r: Registry, generation: int, v: Validation)
    requires generation > 0 && v.template < |r.templates| && v.revision <= r.templates[v.template].revision
    ensures var g, t := Invalidate(r, generation), r.templates[v.template];
            var stale := !t.archived && t.state == Compatible && t.validated != Some(generation);
            && (stale ==> g.templates[v.template].state == Unverified && !Accepts(g, v))
            && (!stale ==> g.templates[v.template] == t)
  {
  }

  // ---- one process ----

  function ObserveAll(r: Registry, signals: seq<Signal>): Registry
    decreases |signals|
  {
    if signals == [] then r else ObserveAll(Advance(r, signals[0]), signals[1..])
  }

  /** Each known signal is unsuspicious, within the tolerance of the anchor, and no uptime falls behind an earlier one. */
  ghost predicate OneProcess(anchor: int, uptime: int, signals: seq<Signal>) {
    && (forall i :: 0 <= i < |signals| && signals[i].known ==>
          !signals[i].suspected && -TOLERANCE <= signals[i].boot - anchor <= TOLERANCE &&
          (uptime > 0 ==> uptime <= signals[i].uptime))
    && (forall i, j :: 0 <= i < j < |signals| && signals[i].known && signals[j].known && signals[i].uptime > 0 ==>
          signals[i].uptime <= signals[j].uptime)
  }

  lemma {:induction false} GenerationGrows(r: Registry, signals: seq<Signal>)
    ensures r.generation <= ObserveAll(r, signals).generation
    decreases |signals|
  {
    if signals != [] { GenerationGrows(Advance(r, signals[0]), signals[1..]); }
  }

  /** However many observations come in, the generation stays where it is exactly when they all look like one process;
      then the anchor does not drift either. */
  lemma {:induction false} OneProcessMovesNothing(r: Registry, signals: seq<Signal>)
    requires r.anchor.Some? && r.uptime >= 0 && forall i :: 0 <= i < |signals| ==> signals[i].uptime >= 0
    ensures ObserveAll(r, signals).generation == r.generation <==> OneProcess(r.anchor.value, r.uptime, signals)
    ensures ObserveAll(r, signals).generation == r.generation ==> ObserveAll(r, signals).anchor == r.anchor
    decreases |signals|
  {
    if signals != [] {
      var s, rest := signals[0], signals[1..];
      var next := Advance(r, s);
      GenerationGrows(next, rest);
      if next.generation == r.generation {
        OneProcessMovesNothing(next, rest);
        OneProcessSplits(r, signals);
      }
    }
  }

  lemma OneProcessSplits(r: Registry, signals: seq<Signal>)
    requires r.anchor.Some? && r.uptime >= 0 && signals != [] && forall i :: 0 <= i < |signals| ==> signals[i].uptime >= 0
    requires Advance(r, signals[0]).generation == r.generation
    ensures var next := Advance(r, signals[0]);
            && next.anchor == r.anchor
            && (OneProcess(r.anchor.value, r.uptime, signals) <==> OneProcess(r.anchor.value, next.uptime, signals[1..]))
  {
    var s, rest, next := signals[0], signals[1..], Advance(r, signals[0]);
    if OneProcess(r.anchor.value, next.uptime, rest) {
      forall i, j | 0 <= i < j < |signals| && signals[i].known && signals[j].known && signals[i].uptime > 0
        ensures signals[i].uptime <= signals[j].uptime
      {
        assert signals[j] == rest[j - 1];
        if i > 0 { assert signals[i] == rest[i - 1]; }
      }
      forall i | 0 <= i < |signals| && signals[i].known
        ensures !signals[i].suspected && -TOLERANCE <= signals[i].boot - r.anchor.value <= TOLERANCE
        ensures r.uptime > 0 ==> r.uptime <= signals[i].uptime
      {
        if i > 0 { assert signals[i] == rest[i - 1]; }
      }
    }
  }

  // ---- whose evidence a verdict is ----

  /** A validation as the code reports it: the look it took at its start is handed in at its end, and the verdict is
      bound to whatever generation that leaves. */
  function Reported(w: World, template: nat, look: Signal): World
    requires template < |w.registry.templates|
  {
    var bound := Next(Next(w, Look(look)), Bind(template, w.registry.templates[template].revision, Compatible));
    Next(bound, Commit(|w.bound|, None))
  }

  /** A compatible verdict always opens the gate, and it does so on evidence of the process last noticed, its generation
      and its anchor untouched, if and only if the look does not pass for a restart. */
  lemma VerdictIsOfTheNoticedProcess(w: World, template: nat, look: Signal)
    requires WorldOk(w) && w.registry.anchor.Some? && template < |w.registry.templates|
    requires !w.registry.templates[template].archived && look.known && !look.suspected
    ensures var done := Reported(w, template, look).registry;
            && Admits(done, template)
            && (done.generation == w.registry.generation && done.anchor == w.registry.anchor <==> !IsRestart(w.registry, look))
  {
  }

  /** So a look that is merely late, of the running process but older than one already taken in, does not pass: the
      generation moves although nothing restarted, and every other template loses its standing. */
  lemma LateLookPassesForARestart(w: World, template: nat, look: Signal, other: nat)
    requires WorldOk(w) && w.registry.anchor.Some? && template < |w.registry.templates| && other != template
    requires !w.registry.templates[template].archived && look.known && !look.suspected
    requires -TOLERANCE <= look.boot - w.registry.anchor.value <= TOLERANCE
    ensures var done := Reported(w, template, look).registry;
            && (done.generation > w.registry.generation <==> w.registry.uptime > 0 && look.uptime < w.registry.uptime)
            && (done.generation > w.registry.generation ==> !Admits(done, other))
  {
  }

  /** And a look taken before a restart, handed in after the restart was noticed, moves the anchor back onto the dead
      process and opens the gate on evidence of it, until the next look at the live one. Validations and reconciliations
      exclude each other by the node's lock; the collector takes no lock, so it is the one that can notice in between. */
  lemma LateVerdictReopensTheGate(w: World, template: nat, dead: Signal, live: Signal)
    requires WorldOk(w) && template < |w.registry.templates| && !w.registry.templates[template].archived
    requires dead.known && live.known && !live.suspected && !dead.suspected
    requires w.registry.anchor == Some(WholeSeconds(dead.boot)) && WholeSeconds(live.boot) - WholeSeconds(dead.boot) > 2 * TOLERANCE
    ensures var noticed := Next(w, Look(live));
            var done := Reported(noticed, template, dead);
            && !Admits(noticed.registry, template)
            && Admits(done.registry, template) && done.registry.anchor == w.registry.anchor
            && !Admits(Next(done, Look(live)).registry, template)
  {
    assert WholeSeconds(live.boot) <= live.boot < WholeSeconds(live.boot) + 1000;
    assert WholeSeconds(dead.boot) <= dead.boot < WholeSeconds(dead.boot) + 1000;
    AdvanceShutsTheGate(w, live, template);
    VerdictIsOfTheNoticedProcess(Next(w, Look(live)), template, dead);
  }
}
