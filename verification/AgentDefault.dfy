/**
 The platform's default agent (backend/app/agents/store.py, `_ensure_builtin_record` and `_ensure_default_agent` in
 backend/app/agents/service.py).

 A pointer row names the default.  Transactions that could leave it dangling lock it and look at it first; while there
 is no such row there is nothing to lock, and what they saw may be out of date when they act.
 */
module AgentDefault {
  import opened Outcomes
  import opened Json
  import opened PyDict

  /** What the transactions read of an agent row; a tool list that is no list is `None`. */
  datatype AgentRow = AgentRow(
    enabled: Option<bool>,
    toolIds: Option<seq<string>>,
    availabilityScope: string,
    unitId: Option<string>,
    projectId: Option<string>,
    allowed: seq<string>,
    pinned: bool)

  datatype Pointer = Pointer(value: Json, version: nat)

  datatype State = State(agents: map<string, AgentRow>, pointer: Option<Pointer>)

  datatype AgentError = ConcurrentUpdate | NotFound | Invalid | Protected | Duplicate

  type Outcome<+T> = Result<T, AgentError>

  const BUILTIN := "platform-default-agent"

  /** The agent a pointer value names, if it is a platform pointer at all. */
  function NamedBy(value: Json): Option<string> {
    match (Get(value, "scope"), Get(value, "agent_id"))
    case (Some(Str(scope)), Some(Str(id))) => if scope == "platform" then Some(id) else None
    case _ => None
  }

  function DefaultId(s: State): Option<string> {
    if s.pointer.Some? then NamedBy(s.pointer.value.value) else None
  }

  function PointerVersion(s: State): nat {
    if s.pointer.Some? then s.pointer.value.version else 0
  }

  function PointerTo(id: string): Json {
    Obj([Field("agent_id", Str(id)), Field("scope", Str("platform"))])
  }

  predicate ForEveryProject(a: AgentRow) {
    a.availabilityScope == "common" && a.unitId.None? && a.projectId.None? && a.allowed == ["*"]
  }

  predicate Eligible(a: AgentRow) {
    a.enabled == Some(true) && ForEveryProject(a)
  }

  // ---------- the transactions ----------

  function DefaultSet(s: State, id: string, expected: nat): Outcome<State> {
    if PointerVersion(s) != expected then Err(ConcurrentUpdate)
    else if id !in s.agents then Err(NotFound)
    else if !Eligible(s.agents[id]) then Err(Invalid)
    else Ok(s.(pointer := Some(Pointer(PointerTo(id), expected + 1))))
  }

  /** `default` is the agent the default row was read to name. */
  function Updated(s: State, default: Option<string>, id: string, enabled: Option<bool>, tools: Option<seq<string>>)
    : Outcome<State>
  {
    if id !in s.agents then Err(NotFound)
    else if enabled != Some(true) && default == Some(id) then Err(Protected)
    else Ok(s.(agents := s.agents[id := s.agents[id].(enabled := enabled, toolIds := tools)]))
  }

  function EnabledSet(s: State, default: Option<string>, id: string, enabled: bool): Outcome<State> {
    if id !in s.agents then Err(NotFound)
    else if !enabled && default == Some(id) then Err(Protected)
    else Ok(s.(agents := s.agents[id := s.agents[id].(enabled := Some(enabled))]))
  }

  function Deleted(s: State, default: Option<string>, id: string): Outcome<State> {
    if id !in s.agents then Err(NotFound)
    else if id == BUILTIN || default == Some(id) then Err(Protected)
    else Ok(s.(agents := s.agents - {id}))
  }

  /** `list(dict.fromkeys(xs))` */
  function Dedup(xs: seq<string>): (r: seq<string>)
    ensures forall x :: x in r <==> x in xs
    ensures Distinct(r)
  {
    if xs == [] then []
    else
      var earlier := Dedup(xs[..|xs| - 1]);
      assert xs == xs[..|xs| - 1] + [xs[|xs| - 1]];
      if xs[|xs| - 1] in earlier then earlier else earlier + [xs[|xs| - 1]]
  }

  function Mended(a: AgentRow, required: seq<string>): AgentRow {
    var existing := if a.toolIds.Some? then a.toolIds.value else [];
    var repaired := Dedup(existing + required);
    if a.enabled != Some(true) || repaired != existing then a.(enabled := Some(true), toolIds := Some(repaired)) else a
  }

  function Repaired(s: State, id: string, required: seq<string>): Outcome<State> {
    if id !in s.agents then Err(NotFound) else Ok(s.(agents := s.agents[id := Mended(s.agents[id], required)]))
  }

  function ToolsOf(a: AgentRow): seq<string> {
    if a.toolIds.Some? then a.toolIds.value else []
  }

  lemma {:induction false} DedupSame(xs: seq<string>)
    requires Distinct(xs)
    ensures Dedup(xs) == xs
  {
    if xs != [] {
      var n := |xs| - 1;
      DedupSame(xs[..n]);
      assert xs == xs[..n] + [xs[n]];
    }
  }

  lemma {:induction false} DedupKnown(xs: seq<string>, ys: seq<string>)
    requires Distinct(xs) && forall y :: y in ys ==> y in xs
    ensures Dedup(xs + ys) == xs
    decreases |ys|
  {
    if ys == [] {
      assert xs + ys == xs;
      DedupSame(xs);
    } else {
      var n := |ys| - 1;
      assert (xs + ys)[..|xs + ys| - 1] == xs + ys[..n];
      DedupKnown(xs, ys[..n]);
      assert ys[n] in ys;
    }
  }

  /** A mended agent is enabled, has its old and the required tools, each once, and is not changed by mending again. */
  lemma MendedHolds(a: AgentRow, required: seq<string>)
    ensures var m := Mended(a, required);
            && m.enabled == Some(true) && Distinct(ToolsOf(m))
            && (forall x :: x in ToolsOf(m) <==> x in ToolsOf(a) || x in required)
            && (ForEveryProject(m) <==> ForEveryProject(a))
            && Mended(m, required) == m
  {
    var m := Mended(a, required);
    DedupKnown(ToolsOf(m), required);
  }

  predicate Available(a: AgentRow) {
    if a.availabilityScope == "project" then
      && a.unitId.Some? && a.unitId.value != "" && a.projectId.Some? && a.projectId.value != "" && a.allowed == []
    else
      && a.availabilityScope == "common"
      && a.unitId.None? && a.projectId.None? && a.allowed != []
      && ("*" in a.allowed ==> a.allowed == ["*"])
  }

  const BUILTIN_ROW := AgentRow(Some(true), Some([]), "common", None, None, ["*"], false)

  function Created(s: State, id: string, row: AgentRow): Outcome<State> {
    if !Available(row) then Err(Invalid)
    else if id in s.agents then Err(Duplicate)
    else Ok(s.(agents := s.agents[id := row.(pinned := false)]))
  }

  function PinnedSet(s: State, id: string, pinned: bool): State {
    if id in s.agents then s.(agents := s.agents[id := s.agents[id].(pinned := pinned)]) else s
  }

  /** An agent is created for one project, for the projects it lists, or for every project, and never pinned. */
  lemma CreatesExactlyWhen(s: State, id: string, row: AgentRow)
    ensures var r := Created(s, id, row);
            var oneProject := && row.availabilityScope == "project" && row.unitId.Some? && row.unitId.value != ""
                              && row.projectId.Some? && row.projectId.value != "" && row.allowed == [];
            var common := && row.availabilityScope == "common" && row.unitId == None && row.projectId == None
                          && (row.allowed == ["*"] || (row.allowed != [] && "*" !in row.allowed));
            && (r.Ok? <==> (oneProject || common) && id !in s.agents)
            && (r == Err(Invalid) <==> !oneProject && !common)
            && (r.Err? ==> r.error == Invalid || r.error == Duplicate)
            && (r.Ok? ==> && r.value.pointer == s.pointer && id in r.value.agents && !r.value.agents[id].pinned
                          && r.value.agents == s.agents[id := r.value.agents[id]]
                          && r.value.agents[id].(pinned := row.pinned) == row)
  {
    assert |"project"| != |"common"|;
  }

  /** The default row moves under its version only, to an agent that is enabled for every project. */
  lemma SetsDefaultExactlyWhen(s: State, id: string, expected: nat)
    ensures var r := DefaultSet(s, id, expected);
            var version := if s.pointer.Some? then s.pointer.value.version else 0;
            && (r.Ok? <==>
                && version == expected && id in s.agents && s.agents[id].enabled == Some(true)
                && s.agents[id].availabilityScope == "common" && s.agents[id].unitId == None
                && s.agents[id].projectId == None && s.agents[id].allowed == ["*"])
            && (r.Ok? ==> && r.value.agents == s.agents && DefaultId(r.value) == Some(id)
                          && r.value.pointer.value.version == expected + 1)
            && (r == Err(ConcurrentUpdate) <==> version != expected)
            && (r == Err(NotFound) <==> version == expected && id !in s.agents)
            && (r.Err? ==> r.error in {ConcurrentUpdate, NotFound, Invalid})
  {
    PointerNames(id);
  }

  /** Changing, disabling or deleting the agent the default row was seen to name is refused, and nothing else is. */
  lemma GuardsExactlyWhen(s: State, seen: Option<string>, id: string, enabled: Option<bool>, tools: Option<seq<string>>,
                          enable: bool)
    ensures var u, e, d := Updated(s, seen, id, enabled, tools), EnabledSet(s, seen, id, enable), Deleted(s, seen, id);
            && (u.Ok? <==> id in s.agents && (seen == Some(id) ==> enabled == Some(true)))
            && (e.Ok? <==> id in s.agents && (seen == Some(id) ==> enable))
            && (d.Ok? <==> id in s.agents && seen != Some(id) && id != "platform-default-agent")
            && (forall r :: r in {u, e, d} ==>
                  && (r == Err(NotFound) <==> id !in s.agents)
                  && (r.Err? ==> r.error in {NotFound, Protected})
                  && (r.Ok? ==> && r.value.pointer == s.pointer
                                && forall other :: other != id ==>
                                     && (other in r.value.agents <==> other in s.agents)
                                     && (other in s.agents ==> r.value.agents[other] == s.agents[other])))
            && (d.Ok? ==> id !in d.value.agents)
            && (u.Ok? ==> id in u.value.agents && u.value.agents[id].toolIds == tools
                          && u.value.agents[id].(toolIds := s.agents[id].toolIds, enabled := enabled)
                               == s.agents[id].(enabled := enabled)
                          && u.value.agents[id].enabled == enabled)
            && (e.Ok? ==> id in e.value.agents && e.value.agents[id] == s.agents[id].(enabled := Some(enable)))
  {
  }

  // ---------- transactions that read the default row they act on ----------

  datatype Step =
    | SetDefault(id: string, expected: nat)
    | Update(id: string, enabled: Option<bool>, tools: Option<seq<string>>)
    | SetEnabled(id: string, enable: bool)
    | Delete(id: string)
    | Repair(id: string, required: seq<string>)
    // The service creates agents of one project, and the built-in one for every project.
    | Create(id: string, unitId: string, projectId: string, enabled: Option<bool>, tools: Option<seq<string>>)
    | CreateBuiltin
    | SetPinned(id: string, pinned: bool)

  function Committed(s: State, outcome: Outcome<State>): State {
    if outcome.Ok? then outcome.value else s
  }

  /** The transaction acts, having seen this default. */
  function Acted(s: State, step: Step, seen: Option<string>): State {
    match step
    case SetDefault(id, expected) => Committed(s, DefaultSet(s, id, expected))
    case Update(id, enabled, tools) => Committed(s, Updated(s, seen, id, enabled, tools))
    case SetEnabled(id, enable) => Committed(s, EnabledSet(s, seen, id, enable))
    case Delete(id) => Committed(s, Deleted(s, seen, id))
    case Repair(id, required) => Committed(s, Repaired(s, id, required))
    case Create(id, unitId, projectId, enabled, tools) =>
      Committed(s, Created(s, id, AgentRow(enabled, tools, "project", Some(unitId), Some(projectId), [], false)))
    case CreateBuiltin => Committed(s, Created(s, BUILTIN, BUILTIN_ROW))
    case SetPinned(id, pinned) => PinnedSet(s, id, pinned)
  }

  /** A transaction is about one agent, and one that creates an agent makes it of the project named. */
  lemma StepIsAboutOne(s: State, step: Step, seen: Option<string>)
    ensures var t := Acted(s, step, seen);
            && (forall other :: other != (if step.CreateBuiltin? then BUILTIN else step.id) ==>
                  (other in t.agents <==> other in s.agents)
                  && (other in s.agents ==> t.agents[other] == s.agents[other]))
            && (step.Create? && step.id !in s.agents && step.unitId != "" && step.projectId != "" ==>
                  && step.id in t.agents
                  && t.agents[step.id] == AgentRow(step.enabled, step.tools, "project", Some(step.unitId),
                                                   Some(step.projectId), [], false))
            && (step.CreateBuiltin? && BUILTIN !in s.agents ==>
                  && BUILTIN in t.agents && Eligible(t.agents[BUILTIN])
                  && t.agents[BUILTIN].toolIds == Some([]) && !t.agents[BUILTIN].pinned)
            && (step.SetPinned? && step.id in s.agents ==>
                  step.id in t.agents && t.agents[step.id] == s.agents[step.id].(pinned := step.pinned))
  {
  }

  function Next(s: State, step: Step): State {
    Acted(s, step, DefaultId(s))
  }

  function Run(s: State, steps: seq<Step>): State {
    if steps == [] then s else Next(Run(s, steps[..|steps| - 1]), steps[|steps| - 1])
  }

  /** An agent the default row names is there and may be the default. */
  predicate NamesEligible(s: State) {
    DefaultId(s).Some? ==> DefaultId(s).value in s.agents && Eligible(s.agents[DefaultId(s).value])
  }

  predicate HasDefault(s: State) {
    DefaultId(s).Some? && NamesEligible(s)
  }

  lemma PointerNames(id: string)
    ensures NamedBy(PointerTo(id)) == Some(id)
  {
    var fs := [Field("agent_id", Str(id)), Field("scope", Str("platform"))];
    assert fs[0].key == "agent_id" && fs[1].key == "scope" && |fs[0].key| != |fs[1].key|;
    LookupAll(fs);
  }

  lemma StepNamesEligible(s: State, step: Step)
    requires NamesEligible(s)
    ensures NamesEligible(Next(s, step))
  {
    if step.SetDefault? {
      PointerNames(step.id);
    }
  }

  /** Whatever a transaction saw, it moves the row only to an eligible agent, and the version then grows by one. */
  lemma StepMovesPointer(s: State, step: Step, seen: Option<string>)
    ensures var t := Acted(s, step, seen);
            t.pointer == s.pointer || (HasDefault(t) && PointerVersion(t) == PointerVersion(s) + 1)
  {
    if step.SetDefault? {
      PointerNames(step.id);
    }
  }

  /**
   Whatever transactions run, each reading the default row it acts on: a row that names an eligible agent goes on naming
   one, its version never falls, and it is the same row exactly when its version is the same.
   */
  lemma {:induction false} RunNamesEligible(s: State, steps: seq<Step>)
    ensures var t := Run(s, steps);
            && (NamesEligible(s) ==> NamesEligible(t))
            && (HasDefault(s) ==> HasDefault(t))
            && PointerVersion(s) <= PointerVersion(t)
            && (PointerVersion(s) == PointerVersion(t) <==> s.pointer == t.pointer)
            && (NamesEligible(s) ==> s.pointer == t.pointer || HasDefault(t))
  {
    hide Acted, Eligible;
    if steps != [] {
      var n := |steps| - 1;
      RunNamesEligible(s, steps[..n]);
      var t := Run(s, steps[..n]);
      StepMovesPointer(t, steps[n], DefaultId(t));
      if NamesEligible(t) {
        StepNamesEligible(t, steps[n]);
      }
    }
  }

  // ---------- transactions that saw no default row ----------

  predicate LooksAtDefault(step: Step) {
    step.Update? || step.SetEnabled? || step.Delete?
  }

  type Looking = step: Step | LooksAtDefault(step) witness Delete("")

  /** The rows, and the transactions that looked for a default row while there was none and have not acted yet. */
  datatype World = World(s: State, pending: seq<Looking>)

  datatype Event =
    | Atomic(step: Step)
    | Begin(step: Step)
    | Commit(index: nat)

  /** Locking a row makes a transaction atomic; one that finds no row acts later as if there still were none. */
  function After(w: World, event: Event): World {
    match event
    case Atomic(step) => w.(s := Next(w.s, step))
    case Begin(step) =>
      if w.s.pointer.None? && LooksAtDefault(step) then w.(pending := w.pending + [step]) else w
    case Commit(index) =>
      if index < |w.pending| then
        World(Acted(w.s, w.pending[index], None), w.pending[..index] + w.pending[index + 1..])
      else w
  }

  function Played(w: World, events: seq<Event>): World {
    if events == [] then w else After(Played(w, events[..|events| - 1]), events[|events| - 1])
  }

  /** The agent may be the default, now or once it is enabled or, for the built-in one, created. */
  predicate Candidate(s: State, id: string) {
    if id in s.agents then ForEveryProject(s.agents[id]) else id == BUILTIN
  }

  /** The transaction takes the default away from under its row, should its agent become the default. */
  predicate Harmful(s: State, step: Step) {
    && ((step.SetEnabled? && !step.enable) || (step.Update? && step.enabled != Some(true))
        || (step.Delete? && step.id != BUILTIN))
    && Candidate(s, step.id)
  }

  /** A transaction that saw no default row can still take this agent away, as there is none or it is pending. */
  ghost predicate Threatened(w: World, id: string) {
    && Candidate(w.s, id)
    && (w.s.pointer.None? || exists step :: step in w.pending && Harmful(w.s, step) && step.id == id)
  }

  ghost predicate Safe(w: World) {
    forall id :: !Threatened(w, id)
  }

  // Neither candidates nor threats are ever added.

  ghost predicate Shrinks(w: World, t: World) {
    && (forall id :: Candidate(t.s, id) ==> Candidate(w.s, id))
    && (forall id :: Threatened(t, id) ==> Threatened(w, id))
  }

  lemma ActedShrinks(s: State, step: Step, seen: Option<string>, id: string)
    ensures Candidate(Acted(s, step, seen), id) ==> Candidate(s, id)
    ensures s.pointer.Some? ==> Acted(s, step, seen).pointer.Some?
  {
  }

  lemma EventShrinks(w: World, event: Event)
    ensures Shrinks(w, After(w, event))
  {
    hide Candidate, Acted;
    var t := After(w, event);
    forall id
      ensures Candidate(t.s, id) ==> Candidate(w.s, id)
      ensures w.s.pointer.Some? ==> t.s.pointer.Some?
    {
      match event
      case Atomic(step) => ActedShrinks(w.s, step, DefaultId(w.s), id);
      case Begin(step) =>
      case Commit(index) =>
        if index < |w.pending| {
          ActedShrinks(w.s, w.pending[index], None, id);
        }
    }
    assert Candidate(t.s, "") ==> Candidate(w.s, "");
    assert w.s.pointer.Some? ==> forall step :: step in t.pending ==> step in w.pending;
  }

  lemma ShrinksThrough(w: World, t: World, u: World)
    requires Shrinks(w, t) && Shrinks(t, u)
    ensures Shrinks(w, u)
  {
    hide Candidate, Threatened;
  }

  lemma {:induction false} PlayedShrinks(w: World, events: seq<Event>)
    ensures Shrinks(w, Played(w, events))
  {
    hide After, Shrinks;
    if events == [] {
      ShrinksNot(w);
    } else {
      var n := |events| - 1;
      PlayedShrinks(w, events[..n]);
      EventShrinks(Played(w, events[..n]), events[n]);
      ShrinksThrough(w, Played(w, events[..n]), Played(w, events));
    }
  }

  lemma ShrinksNot(w: World)
    ensures Shrinks(w, w)
  {
  }

  // A default that is lost was threatened.

  /** The agent the default row names may be the default, or was threatened at the start. */
  ghost predicate Tame(start: World, t: World) {
    NamesEligible(t.s) || (DefaultId(t.s).Some? && Threatened(start, DefaultId(t.s).value))
  }

  lemma BlindHolds(s: State, step: Step)
    requires NamesEligible(s) && LooksAtDefault(step)
    requires Harmful(s, step) ==> DefaultId(s) != Some(step.id)
    ensures NamesEligible(Acted(s, step, None))
  {
  }

  lemma BlindKeepsPointer(s: State, step: Step)
    requires LooksAtDefault(step)
    ensures Acted(s, step, None).pointer == s.pointer
  {
  }

  lemma EventTame(start: World, t: World, event: Event)
    requires Shrinks(start, t) && Tame(start, t)
    ensures Tame(start, After(t, event))
  {
    hide Acted, NamesEligible, Candidate, Harmful;
    match event
    case Atomic(step) =>
      StepMovesPointer(t.s, step, DefaultId(t.s));
      HasDefaultNames(After(t, event).s);
      if NamesEligible(t.s) {
        StepNamesEligible(t.s, step);
      }
    case Begin(step) =>
    case Commit(index) =>
      if index < |t.pending| {
        var step := t.pending[index];
        assert step in t.pending;
        BlindKeepsPointer(t.s, step);
        if NamesEligible(t.s) {
          if Harmful(t.s, step) && DefaultId(t.s) == Some(step.id) {
            HarmfulCandidate(t.s, step);
            assert Threatened(t, step.id);
          } else {
            BlindHolds(t.s, step);
          }
        }
      }
  }

  lemma HasDefaultNames(s: State)
    ensures HasDefault(s) <==> DefaultId(s).Some? && NamesEligible(s)
  {
  }

  lemma HarmfulCandidate(s: State, step: Step)
    requires Harmful(s, step)
    ensures Candidate(s, step.id)
  {
  }

  lemma {:induction false} PlayedTame(start: World, events: seq<Event>)
    requires Tame(start, start)
    ensures Tame(start, Played(start, events))
  {
    hide After, Tame, Shrinks;
    if events != [] {
      var n := |events| - 1;
      PlayedTame(start, events[..n]);
      PlayedShrinks(start, events[..n]);
      EventTame(start, Played(start, events[..n]), events[n]);
    }
  }

  /** Whatever clients do, the default row is the same as before, or it names an agent as said. */
  lemma {:induction false} MovedTame(start: World, events: seq<Event>)
    ensures var t := Played(start, events);
            t.s.pointer == start.s.pointer || (DefaultId(t.s).Some? && Tame(start, t))
  {
    hide Acted, Shrinks, NamesEligible, Threatened;
    if events != [] {
      var n := |events| - 1;
      MovedTame(start, events[..n]);
      PlayedShrinks(start, events[..n]);
      var t := Played(start, events[..n]);
      var u := After(t, events[n]);
      EventMoves(t, events[n]);
      HasDefaultNames(u.s);
      if u.s.pointer == t.s.pointer && t.s.pointer != start.s.pointer {
        EventTame(start, t, events[n]);
      }
    }
  }

  lemma EventMoves(t: World, event: Event)
    ensures After(t, event).s.pointer == t.s.pointer || HasDefault(After(t, event).s)
  {
    hide Acted, HasDefault;
    match event
    case Atomic(step) => StepMovesPointer(t.s, step, DefaultId(t.s));
    case Begin(step) =>
    case Commit(index) =>
      if index < |t.pending| {
        StepMovesPointer(t.s, t.pending[index], None);
      }
  }

  /** While no agent is threatened, a default that is eligible stays so. */
  lemma SafeKeeps(w: World, events: seq<Event>)
    requires Safe(w)
    ensures var t := Played(w, events);
            && Safe(t)
            && (NamesEligible(w.s) ==> NamesEligible(t.s))
            && (HasDefault(w.s) ==> HasDefault(t.s))
            && (t.s.pointer == w.s.pointer || HasDefault(t.s))
  {
    hide Played, NamesEligible, Threatened;
    PlayedShrinks(w, events);
    MovedTame(w, events);
    HasDefaultNames(w.s);
    HasDefaultNames(Played(w, events).s);
    if NamesEligible(w.s) {
      PlayedTame(w, events);
    }
  }

  lemma EventSafe(w: World, event: Event)
    requires Safe(w)
    ensures Safe(After(w, event)) && (HasDefault(w.s) ==> HasDefault(After(w, event).s))
  {
    hide Played, After, Safe, HasDefault;
    SafeKeeps(w, [event]);
    PlayedOne(w, event);
  }

  /** Whatever clients do, the row's version never falls, and it is the same exactly when the row is the same. */
  lemma {:induction false} VersionTellsApart(w: World, events: seq<Event>)
    ensures var t := Played(w, events).s;
            && PointerVersion(w.s) <= PointerVersion(t)
            && (PointerVersion(w.s) == PointerVersion(t) <==> w.s.pointer == t.pointer)
  {
    hide Acted, HasDefault;
    if events != [] {
      var n := |events| - 1;
      VersionTellsApart(w, events[..n]);
      var t := Played(w, events[..n]);
      match events[n]
      case Atomic(step) => StepMovesPointer(t.s, step, DefaultId(t.s));
      case Begin(_) =>
      case Commit(index) =>
        if index < |t.pending| {
          StepMovesPointer(t.s, t.pending[index], None);
        }
    }
  }

  /** A disabling that saw no default row, because there was none to lock, leaves the new default disabled. */
  lemma MissingPointerRace(w: World, id: string)
    requires w.s.pointer.None? && id in w.s.agents && Eligible(w.s.agents[id])
    ensures var pointed := Played(w, [Begin(SetEnabled(id, false))] + [Atomic(SetDefault(id, 0))]);
            && HasDefault(pointed.s)
            && !NamesEligible(After(pointed, Commit(|w.pending|)).s)
  {
    hide Played;
    PointerNames(id);
    PlayedOne(w, Begin(SetEnabled(id, false)));
    PlayedThen(w, [Begin(SetEnabled(id, false))], Atomic(SetDefault(id, 0)));
  }

  // ---------- how a default is lost ----------

  /** Other clients make this agent eligible. */
  function Enabling(s: State, id: string): seq<Event> {
    if id in s.agents then [Atomic(SetEnabled(id, true))] else [Atomic(CreateBuiltin)]
  }

  function Pointing(s: State, id: string): seq<Event> {
    Enabling(s, id) + [Atomic(SetDefault(id, PointerVersion(s)))]
  }

  lemma PlayedThen(w: World, events: seq<Event>, event: Event)
    ensures Played(w, events + [event]) == After(Played(w, events), event)
  {
    assert (events + [event])[..|events|] == events;
  }

  lemma PlayedOne(w: World, event: Event)
    ensures Played(w, [event]) == After(w, event)
  {
    assert [] + [event] == [event];
    PlayedThen(w, [], event);
  }

  lemma EnablingMakes(w: World, id: string) returns (row: AgentRow)
    requires Candidate(w.s, id)
    ensures Eligible(row) && Played(w, Enabling(w.s, id)) == w.(s := w.s.(agents := w.s.agents[id := row]))
  {
    hide Played, DefaultId;
    if id in w.s.agents {
      row := w.s.agents[id].(enabled := Some(true));
      PlayedOne(w, Atomic(SetEnabled(id, true)));
    } else {
      row := BUILTIN_ROW;
      PlayedOne(w, Atomic(CreateBuiltin));
    }
  }

  lemma PointingMakes(w: World, id: string) returns (row: AgentRow)
    requires Candidate(w.s, id)
    ensures Eligible(row)
    ensures Played(w, Pointing(w.s, id))
            == w.(s := State(w.s.agents[id := row], Some(Pointer(PointerTo(id), PointerVersion(w.s) + 1))))
  {
    hide Played, Eligible, Enabling;
    row := EnablingMakes(w, id);
    PlayedThen(w, Enabling(w.s, id), Atomic(SetDefault(id, PointerVersion(w.s))));
  }

  /** A harmful transaction that saw no default row commits after its agent has become the default. */
  function Breaking(w: World, index: nat): seq<Event>
    requires index < |w.pending|
  {
    Pointing(w.s, w.pending[index].id) + [Commit(index)]
  }

  lemma BreakingBreaks(w: World, index: nat)
    requires index < |w.pending| && Harmful(w.s, w.pending[index])
    ensures var t := Played(w, Breaking(w, index)).s;
            && DefaultId(t) == Some(w.pending[index].id) && !NamesEligible(t)
            && (forall id :: id in w.s.agents && id != w.pending[index].id ==>
                  id in t.agents && t.agents[id] == w.s.agents[id])
  {
    hide Played, Pointing, Candidate;
    var id := w.pending[index].id;
    HarmfulCandidate(w.s, w.pending[index]);
    var row := PointingMakes(w, id);
    PlayedThen(w, Pointing(w.s, id), Commit(index));
    PointerNames(id);
  }

  /** What clients do to have a transaction pending that takes this agent away, or nothing if there is one. */
  function Opening(w: World, id: string): seq<Event> {
    if w.s.pointer.None? then [Begin(SetEnabled(id, false))] else []
  }

  lemma OpeningHarms(w: World, id: string) returns (index: nat)
    requires Threatened(w, id)
    ensures var t := Played(w, Opening(w, id));
            t.s == w.s && index < |t.pending| && Harmful(w.s, t.pending[index]) && t.pending[index].id == id
  {
    hide Played;
    if w.s.pointer.None? {
      index := |w.pending|;
      PlayedOne(w, Begin(SetEnabled(id, false)));
    } else {
      PlayedNone(w);
      var step :| step in w.pending && Harmful(w.s, step) && step.id == id;
      index :| index < |w.pending| && w.pending[index] == step;
    }
  }

  lemma PlayedNone(w: World)
    ensures Played(w, []) == w
  {
  }

  lemma {:induction false} PlayedAppend(w: World, a: seq<Event>, b: seq<Event>)
    ensures Played(w, a + b) == Played(Played(w, a), b)
    decreases |b|
  {
    hide After;
    if b == [] {
      assert a + b == a;
    } else {
      var n := |b| - 1;
      assert a + b == (a + b[..n]) + [b[n]];
      PlayedAppend(w, a, b[..n]);
      PlayedThen(w, a + b[..n], b[n]);
    }
  }

  /** Whatever any clients do, an agent the default row names may be the default. */
  ghost predicate AlwaysEligible(w: World) {
    forall events :: NamesEligible(Played(w, events).s)
  }

  /**
   From rows whose default, if any, is eligible: it stays eligible whatever clients do, exactly when no agent is
   threatened.
   */
  lemma StaysEligibleExactlyWhen(w: World)
    requires NamesEligible(w.s)
    ensures AlwaysEligible(w) <==> Safe(w)
  {
    hide Played, Opening, Pointing, Harmful, Threatened;
    if Safe(w) {
      forall events
        ensures NamesEligible(Played(w, events).s)
      {
        SafeKeeps(w, events);
      }
    } else {
      var id :| Threatened(w, id);
      var index := OpeningHarms(w, id);
      var t := Played(w, Opening(w, id));
      BreakingBreaks(t, index);
      PlayedAppend(w, Opening(w, id), Breaking(t, index));
    }
  }

  /** No agent is threatened exactly when there is a default row and nothing harmful is pending, or no candidate. */
  lemma SafeExactlyWhen(w: World)
    ensures Safe(w) <==>
            if w.s.pointer.Some? then forall step :: step in w.pending ==> !Harmful(w.s, step)
            else forall id :: !Candidate(w.s, id)
  {
    hide Candidate;
    if w.s.pointer.Some? {
      forall step | step in w.pending && Harmful(w.s, step)
        ensures Threatened(w, step.id)
      {
        HarmfulCandidate(w.s, step);
      }
    } else {
      forall id | Candidate(w.s, id)
        ensures Threatened(w, id)
      {
      }
    }
  }

  // ---------- making sure there is a default ----------

  /** What other clients do between the transactions of a call. */
  type Environment = seq<seq<Event>>

  function At(env: Environment, i: nat): seq<Event> {
    if i < |env| then env[i] else []
  }

  predicate Quiet(env: Environment) {
    forall i :: 0 <= i < |env| ==> env[i] == []
  }

  const ATTEMPTS := 3

  /** The built-in agent, created if it is missing and mended; others act between the transactions. */
  function EnsuredBuiltin(w: World, env: Environment, required: seq<string>): (World, Outcome<()>) {
    var w0 := Played(w, At(env, 0));
    var created := if BUILTIN in w.s.agents then w0 else w0.(s := Committed(w0.s, Created(w0.s, BUILTIN, BUILTIN_ROW)));
    var w1 := Played(created, At(env, 1));
    match Repaired(w1.s, BUILTIN, required)
    case Ok(s) => (w1.(s := s), Ok(()))
    case Err(_) => (w1, Err(ConcurrentUpdate))
  }

  /** The agent one reading of the default row named was there and eligible at a later one. */
  predicate Answers(read: State, later: State) {
    && DefaultId(read).Some? && DefaultId(read).value != ""
    && DefaultId(read).value in later.agents && Eligible(later.agents[DefaultId(read).value])
  }

  /** The attempts from the `i`-th on. */
  function Tried(w: World, env: Environment, i: nat): (World, Outcome<()>)
    decreases ATTEMPTS - i
  {
    var t := Played(w, At(env, 2 * i + 2));
    if Answers(w.s, t.s) then (t, Ok(()))
    else if i >= ATTEMPTS then (t, Err(ConcurrentUpdate))
    else
      var u := Played(t, At(env, 2 * i + 3));
      match DefaultSet(u.s, BUILTIN, PointerVersion(w.s))
      case Ok(s) => (u.(s := s), Ok(()))
      case Err(e) => if e == ConcurrentUpdate then Tried(u, env, i + 1) else (u, Err(e))
  }

  function Ensured(w: World, env: Environment, required: seq<string>): (World, Outcome<()>) {
    var (built, r) := EnsuredBuiltin(w, env, required);
    if r.Err? then (built, r) else Tried(built, env, 0)
  }

  /** Of any two agents that could be the default, one that a pending transaction may still take away has no partner. */
  ghost predicate Reliable(w: World) {
    forall x, y :: Threatened(w, y) && Candidate(w.s, x) && x != y ==> x == ""
  }

  // What the call keeps while it is safe or reliable.

  lemma BuiltinShrinks(w: World, env: Environment, required: seq<string>)
    ensures Shrinks(w, EnsuredBuiltin(w, env, required).0)
  {
    hide Played, Shrinks, Repaired, Created;
    var w0 := Played(w, At(env, 0));
    PlayedShrinks(w, At(env, 0));
    var created := if BUILTIN in w.s.agents then w0 else After(w0, Atomic(CreateBuiltin));
    EventShrinks(w0, Atomic(CreateBuiltin));
    if BUILTIN !in w.s.agents {
      ShrinksThrough(w, w0, created);
    }
    var w1 := Played(created, At(env, 1));
    PlayedShrinks(created, At(env, 1));
    ShrinksThrough(w, created, w1);
    EventShrinks(w1, Atomic(Repair(BUILTIN, required)));
    ShrinksThrough(w, w1, After(w1, Atomic(Repair(BUILTIN, required))));
  }

  lemma BuiltinSafe(w: World, env: Environment, required: seq<string>)
    requires Safe(w)
    ensures var t := EnsuredBuiltin(w, env, required).0;
            Safe(t) && (HasDefault(w.s) ==> HasDefault(t.s))
  {
    hide Played, Safe, HasDefault, Repaired, Created;
    var w0 := Played(w, At(env, 0));
    SafeKeeps(w, At(env, 0));
    EventSafe(w0, Atomic(CreateBuiltin));
    var created := if BUILTIN in w.s.agents then w0 else After(w0, Atomic(CreateBuiltin));
    var w1 := Played(created, At(env, 1));
    SafeKeeps(created, At(env, 1));
    EventSafe(w1, Atomic(Repair(BUILTIN, required)));
  }

  lemma {:induction false} TriedSafe(w: World, env: Environment, i: nat)
    requires Safe(w)
    ensures HasDefault(w.s) ==> HasDefault(Tried(w, env, i).0.s)
    decreases ATTEMPTS - i
  {
    hide Played, Safe, Eligible;
    var t := Played(w, At(env, 2 * i + 2));
    SafeKeeps(w, At(env, 2 * i + 2));
    if !Answers(w.s, t.s) && i < ATTEMPTS {
      var u := Played(t, At(env, 2 * i + 3));
      SafeKeeps(t, At(env, 2 * i + 3));
      if DefaultSet(u.s, BUILTIN, PointerVersion(w.s)).Ok? {
        SetHasDefault(u.s, BUILTIN, PointerVersion(w.s));
      } else {
        TriedSafe(u, env, i + 1);
      }
    }
  }

  lemma SetHasDefault(s: State, id: string, expected: nat)
    requires DefaultSet(s, id, expected).Ok?
    ensures HasDefault(DefaultSet(s, id, expected).value)
  {
    PointerNames(id);
  }

  lemma ReliableStays(w: World, t: World)
    requires Reliable(w) && Shrinks(w, t)
    ensures Reliable(t)
  {
    hide Candidate, Threatened;
  }

  /** The agent that was named and is eligible later is the default then, or the one named instead is. */
  lemma AnswerHasDefault(w: World, events: seq<Event>)
    requires Reliable(w) && Answers(w.s, Played(w, events).s)
    ensures HasDefault(Played(w, events).s)
  {
    hide Played, Candidate, Threatened, Shrinks;
    var t := Played(w, events);
    var read := DefaultId(w.s).value;
    MovedTame(w, events);
    PlayedShrinks(w, events);
    AnswerCandidate(w, t, read);
  }

  lemma AnswerCandidate(w: World, t: World, id: string)
    requires Shrinks(w, t) && id in t.s.agents && Eligible(t.s.agents[id])
    ensures Candidate(w.s, id)
  {
    assert Candidate(t.s, id);
  }

  lemma {:induction false} TriedReliable(w: World, env: Environment, i: nat)
    requires Reliable(w) && Tried(w, env, i).1.Ok?
    ensures HasDefault(Tried(w, env, i).0.s)
    decreases ATTEMPTS - i
  {
    hide Played, Reliable, HasDefault, Answers, Shrinks;
    var t := Played(w, At(env, 2 * i + 2));
    if Answers(w.s, t.s) {
      AnswerHasDefault(w, At(env, 2 * i + 2));
    } else if i < ATTEMPTS {
      var u := Played(t, At(env, 2 * i + 3));
      if DefaultSet(u.s, BUILTIN, PointerVersion(w.s)).Ok? {
        SetHasDefault(u.s, BUILTIN, PointerVersion(w.s));
      } else {
        PlayedShrinks(w, At(env, 2 * i + 2));
        PlayedShrinks(t, At(env, 2 * i + 3));
        ShrinksThrough(w, t, u);
        ReliableStays(w, u);
        TriedReliable(u, env, i + 1);
      }
    }
  }

  // How the call returns normally without a default.

  /** The rows once the built-in agent was looked for, and created if it was missing. */
  function WithBuiltin(s: State): State {
    if BUILTIN in s.agents then s else Committed(s, Created(s, BUILTIN, BUILTIN_ROW))
  }

  /** While `x` is the default that is looked at, another agent becomes the default and is disabled or deleted. */
  lemma HarmedTries(w: World, env: Environment, index: nat, x: string)
    requires index < |w.pending| && Harmful(w.s, w.pending[index]) && x != w.pending[index].id && x != ""
    requires DefaultId(w.s) == Some(x) && x in w.s.agents && Eligible(w.s.agents[x])
    requires At(env, 2) == Breaking(w, index)
    ensures Tried(w, env, 0).1.Ok? && !HasDefault(Tried(w, env, 0).0.s)
  {
    hide Played, Breaking, Harmful, Eligible;
    BreakingBreaks(w, index);
  }

  /** While `y` is threatened, others make `x` the default, and then `y`, which is taken away. */
  lemma UnreliableEnsures(w: World, required: seq<string>, x: string, y: string) returns (env: Environment)
    requires Threatened(w, y) && Candidate(w.s, x) && x != y && x != ""
    ensures var (t, r) := Ensured(w, env, required);
            r.Ok? && !HasDefault(t.s)
  {
    hide Played, Pointing, Opening, Breaking, Harmful, Eligible, Tried, Mended, HasDefault, Candidate, Threatened;
    var index := OpeningHarms(w, y);
    var w0 := Played(w, Opening(w, y));
    var w1 := w0.(s := WithBuiltin(w0.s));
    BuiltinStays(w.s, x);
    var row := PointingMakes(w1, x);
    PointerNames(x);
    var w2 := Played(w1, Pointing(w1.s, x));
    var w3 := w2.(s := Committed(w2.s, Repaired(w2.s, BUILTIN, required)));
    StaysHarmful(w.s, w0.pending[index], x, row, w2.s.pointer, required);
    env := [Opening(w, y), Pointing(w1.s, x), Breaking(w3, index)];
    HarmedTries(w3, env, index, x);
  }

  lemma BuiltinStays(s: State, id: string)
    requires Candidate(s, id)
    ensures Candidate(WithBuiltin(s), id)
  {
  }

  lemma StaysHarmful(s: State, step: Step, x: string, row: AgentRow, pointer: Option<Pointer>, required: seq<string>)
    requires Harmful(s, step) && Candidate(s, x) && Eligible(row)
    ensures var t := State(WithBuiltin(s).agents[x := row], pointer);
            var u := Committed(t, Repaired(t, BUILTIN, required));
            Harmful(u, step) && x in u.agents && Eligible(u.agents[x]) && u.pointer == pointer
  {
    hide Dedup;
    MendedHolds(row, required);
  }

  /** Whatever other clients do, a normal return leaves an eligible default. */
  ghost predicate AlwaysEnsures(w: World, required: seq<string>) {
    forall env :: Ensured(w, env, required).1.Ok? ==> HasDefault(Ensured(w, env, required).0.s)
  }

  /**
   From any rows and pending transactions: a normal return leaves an eligible default whatever other clients do,
   exactly when no agent is threatened while another, with an id that is not empty, could be the default.
   */
  lemma EnsuresExactlyWhen(w: World, required: seq<string>)
    ensures AlwaysEnsures(w, required) <==> Reliable(w)
  {
    hide Tried, EnsuredBuiltin, HasDefault, Candidate, Threatened, Shrinks;
    if Reliable(w) {
      forall env | Ensured(w, env, required).1.Ok?
        ensures HasDefault(Ensured(w, env, required).0.s)
      {
        BuiltinShrinks(w, env, required);
        ReliableStays(w, EnsuredBuiltin(w, env, required).0);
        TriedReliable(EnsuredBuiltin(w, env, required).0, env, 0);
      }
    } else {
      var x, y :| Threatened(w, y) && Candidate(w.s, x) && x != y && x != "";
      var env := UnreliableEnsures(w, required, x, y);
    }
  }

  // Making sure of the built-in agent alone mends a default a disabling took, if it is the built-in agent.

  /** The default is eligible, or is the built-in agent and only needs to be enabled. */
  predicate Mendable(s: State) {
    && DefaultId(s).Some? && DefaultId(s).value in s.agents
    && if DefaultId(s).value == BUILTIN then ForEveryProject(s.agents[BUILTIN])
       else Eligible(s.agents[DefaultId(s).value])
  }

  /** No harmful transaction is pending on any other agent. */
  predicate SafeElsewhere(w: World) {
    w.s.pointer.Some? && forall step :: step in w.pending && Harmful(w.s, step) ==> step.id == BUILTIN
  }

  lemma ActedMendable(s: State, step: Step, seen: Option<string>)
    requires Mendable(s)
    requires LooksAtDefault(step) && seen != DefaultId(s) && Harmful(s, step) ==> step.id == BUILTIN
    ensures Mendable(Acted(s, step, seen))
  {
    if step.SetDefault? {
      PointerNames(step.id);
    }
  }

  lemma PendingHarmless(w: World, step: Step, seen: Option<string>)
    ensures w.s.pointer.Some? ==> Acted(w.s, step, seen).pointer.Some?
    ensures forall other :: other in w.pending && Harmful(Acted(w.s, step, seen), other) ==> Harmful(w.s, other)
  {
    hide Acted, Candidate;
    ActedShrinks(w.s, step, seen, "");
    forall other | other in w.pending && Harmful(Acted(w.s, step, seen), other)
      ensures Harmful(w.s, other)
    {
      ActedShrinks(w.s, step, seen, other.id);
    }
  }

  lemma EventSafeElsewhere(w: World, event: Event)
    requires SafeElsewhere(w)
    ensures SafeElsewhere(After(w, event))
    ensures Mendable(w.s) ==> Mendable(After(w, event).s)
  {
    hide Acted, Mendable, Candidate;
    match event
    case Atomic(step) =>
      PendingHarmless(w, step, DefaultId(w.s));
      if Mendable(w.s) {
        ActedMendable(w.s, step, DefaultId(w.s));
      }
    case Begin(step) =>
    case Commit(index) =>
      if index < |w.pending| {
        var step := w.pending[index];
        assert step in w.pending;
        PendingHarmless(w, step, None);
        if Mendable(w.s) {
          ActedMendable(w.s, step, None);
        }
        forall other | other in After(w, event).pending && Harmful(After(w, event).s, other)
          ensures other.id == BUILTIN
        {
          assert other in w.pending;
        }
      }
  }

  lemma {:induction false} SafeElsewhereKeeps(w: World, events: seq<Event>)
    requires SafeElsewhere(w)
    ensures SafeElsewhere(Played(w, events))
    ensures Mendable(w.s) ==> Mendable(Played(w, events).s)
  {
    hide After, SafeElsewhere, Mendable;
    if events != [] {
      var n := |events| - 1;
      SafeElsewhereKeeps(w, events[..n]);
      EventSafeElsewhere(Played(w, events[..n]), events[n]);
    }
  }

  lemma BuiltinKeepsDefault(w: World, env: Environment, required: seq<string>)
    requires SafeElsewhere(w) && HasDefault(w.s)
    ensures HasDefault(EnsuredBuiltin(w, env, required).0.s)
  {
    hide Played, SafeElsewhere;
    var w0 := Played(w, At(env, 0));
    SafeElsewhereKeeps(w, At(env, 0));
    EventSafeElsewhere(w0, Atomic(CreateBuiltin));
    var created := if BUILTIN in w.s.agents then w0 else After(w0, Atomic(CreateBuiltin));
    SafeElsewhereKeeps(created, At(env, 1));
  }

  /** Whatever other clients do while the built-in agent is made sure of, there is a default afterwards. */
  ghost predicate BuiltinNeverLoses(w: World, required: seq<string>) {
    forall env :: HasDefault(EnsuredBuiltin(w, env, required).0.s)
  }

  /**
   Making sure of the built-in agent loses no eligible default to other clients, exactly when no harmful transaction
   that began without a default row is pending on another agent than the built-in one, which the call mends last.
   */
  lemma BuiltinKeepsExactlyWhen(w: World, required: seq<string>)
    requires HasDefault(w.s)
    ensures BuiltinNeverLoses(w, required) <==> SafeElsewhere(w)
  {
    hide EnsuredBuiltin, Eligible, Harmful;
    if SafeElsewhere(w) {
      forall env
        ensures HasDefault(EnsuredBuiltin(w, env, required).0.s)
      {
        BuiltinKeepsDefault(w, env, required);
      }
    } else {
      var step :| step in w.pending && Harmful(w.s, step) && step.id != BUILTIN;
      var index: nat :| index < |w.pending| && w.pending[index] == step;
      BuiltinLoses(w, index, required);
    }
  }

  lemma BuiltinLoses(w: World, index: nat, required: seq<string>)
    requires HasDefault(w.s) && index < |w.pending| && Harmful(w.s, w.pending[index]) && w.pending[index].id != BUILTIN
    ensures !HasDefault(EnsuredBuiltin(w, [Breaking(w, index)], required).0.s)
  {
    hide Played, Breaking, Harmful, Mended;
    BreakingBreaks(w, index);
    var t := Played(w, Breaking(w, index));
    PlayedNone(if BUILTIN in w.s.agents then t else t.(s := Committed(t.s, Created(t.s, BUILTIN, BUILTIN_ROW))));
  }

  /** Left alone, the call succeeds exactly when there is a default or the built-in agent is, or can be made, one. */
  lemma LeftAlone(w: World, env: Environment, required: seq<string>)
    requires Quiet(env)
    ensures Ensured(w, env, required).1.Ok? <==>
            || (HasDefault(w.s) && DefaultId(w.s) != Some(""))
            || BUILTIN !in w.s.agents || ForEveryProject(w.s.agents[BUILTIN])
    ensures var t := EnsuredBuiltin(w, env, required).0;
            t == w.(s := w.s.(agents := w.s.agents[BUILTIN :=
                   Mended(if BUILTIN in w.s.agents then w.s.agents[BUILTIN] else BUILTIN_ROW, required)]))
  {
    hide Played, Dedup;
    assert forall i :: At(env, i) == [];
    forall v: World
      ensures Played(v, []) == v
    {
      PlayedNone(v);
    }
    MendedHolds(if BUILTIN in w.s.agents then w.s.agents[BUILTIN] else BUILTIN_ROW, required);
  }

  /** What the whole call keeps, and when it returns normally if it is left alone. */
  lemma EnsuredHolds(w: World, env: Environment, required: seq<string>)
    ensures var (t, r) := Ensured(w, env, required);
            && (Reliable(w) && r.Ok? ==> HasDefault(t.s))
            && (Safe(w) && HasDefault(w.s) ==> HasDefault(t.s))
            && (Quiet(env) ==>
                  (r.Ok? <==> || (HasDefault(w.s) && DefaultId(w.s) != Some(""))
                              || BUILTIN !in w.s.agents || ForEveryProject(w.s.agents[BUILTIN])))
  {
    hide Played, EnsuredBuiltin, HasDefault, Safe, Reliable, Shrinks, ForEveryProject, Mended, Eligible, DefaultId;
    if Quiet(env) {
      LeftAlone(w, env, required);
    }
    if Safe(w) {
      BuiltinSafe(w, env, required);
      TriedSafe(EnsuredBuiltin(w, env, required).0, env, 0);
    }
    if Reliable(w) && Ensured(w, env, required).1.Ok? {
      BuiltinShrinks(w, env, required);
      ReliableStays(w, EnsuredBuiltin(w, env, required).0);
      TriedReliable(EnsuredBuiltin(w, env, required).0, env, 0);
    }
  }

  // ---------- the tables, changed in place ----------

  class AgentTables {
    var agents: map<string, AgentRow>
    var pointer: Option<Pointer>
    // Of other clients: what looked for a default row, found none, and has not acted yet.
    var pending: seq<Looking>

    constructor (agents: map<string, AgentRow>, pointer: Option<Pointer>)
      ensures Value() == State(agents, pointer) && pending == []
    {
      this.agents, this.pointer, pending := agents, pointer, [];
    }

    function Value(): State
      reads this
    {
      State(agents, pointer)
    }

    function Whole(): World
      reads this
    {
      World(Value(), pending)
    }

    method SetDefaultId(id: string, expected: nat) returns (r: Outcome<()>)
      modifies this`pointer
      ensures Value() == Committed(old(Value()), DefaultSet(old(Value()), id, expected))
      ensures r.Ok? <==> DefaultSet(old(Value()), id, expected).Ok?
      ensures r.Err? ==> DefaultSet(old(Value()), id, expected) == Err(r.error)
    {
      var current := if pointer.Some? then pointer.value.version else 0;
      if current != expected {
        return Err(ConcurrentUpdate);
      }
      if id !in agents {
        return Err(NotFound);
      }
      if !Eligible(agents[id]) {
        return Err(Invalid);
      }
      if pointer.None? {
        pointer := Some(Pointer(PointerTo(id), 1));
      } else {
        pointer := Some(Pointer(PointerTo(id), current + 1));
      }
      return Ok(());
    }

    method SetEnabledAgent(id: string, enabled: bool) returns (r: Outcome<()>)
      modifies this`agents
      ensures Value() == Committed(old(Value()), EnabledSet(old(Value()), DefaultId(old(Value())), id, enabled))
      ensures r.Ok? <==> EnabledSet(old(Value()), DefaultId(old(Value())), id, enabled).Ok?
    {
      var default := if pointer.Some? then NamedBy(pointer.value.value) else None;
      if id !in agents {
        return Err(NotFound);
      }
      if !enabled && default == Some(id) {
        return Err(Protected);
      }
      agents := agents[id := agents[id].(enabled := Some(enabled))];
      return Ok(());
    }

    method UpdateAgent(id: string, enabled: Option<bool>, tools: Option<seq<string>>) returns (r: Outcome<()>)
      modifies this`agents
      ensures Value() == Committed(old(Value()), Updated(old(Value()), DefaultId(old(Value())), id, enabled, tools))
      ensures r.Ok? <==> Updated(old(Value()), DefaultId(old(Value())), id, enabled, tools).Ok?
    {
      var default := if pointer.Some? then NamedBy(pointer.value.value) else None;
      if id !in agents {
        return Err(NotFound);
      }
      if enabled != Some(true) && default == Some(id) {
        return Err(Protected);
      }
      agents := agents[id := agents[id].(enabled := enabled, toolIds := tools)];
      return Ok(());
    }

    method DeleteAgent(id: string) returns (r: Outcome<()>)
      modifies this`agents
      ensures Value() == Committed(old(Value()), Deleted(old(Value()), DefaultId(old(Value())), id))
      ensures r.Ok? <==> Deleted(old(Value()), DefaultId(old(Value())), id).Ok?
    {
      var default := if pointer.Some? then NamedBy(pointer.value.value) else None;
      if id !in agents {
        return Err(NotFound);
      }
      if id == BUILTIN || default == Some(id) {
        return Err(Protected);
      }
      agents := agents - {id};
      return Ok(());
    }

    method RepairBuiltinAgent(id: string, required: seq<string>) returns (r: Outcome<()>)
      modifies this`agents
      ensures Value() == Committed(old(Value()), Repaired(old(Value()), id, required))
      ensures r.Ok? <==> id in old(agents)
    {
      if id !in agents {
        return Err(NotFound);
      }
      var target := agents[id];
      var existing := if target.toolIds.Some? then target.toolIds.value else [];
      var repaired := Dedup(existing + required);
      if target.enabled != Some(true) || repaired != existing {
        target := target.(enabled := Some(true));
        target := target.(toolIds := Some(repaired));
      }
      agents := agents[id := target];
      return Ok(());
    }

    method CreateAgent(id: string, row: AgentRow) returns (r: Outcome<()>)
      modifies this`agents
      ensures Value() == Committed(old(Value()), Created(old(Value()), id, row))
      ensures r.Ok? <==> Created(old(Value()), id, row).Ok?
      ensures r.Err? ==> Created(old(Value()), id, row) == Err(r.error)
    {
      if !Available(row) {
        return Err(Invalid);
      }
      if id in agents {
        return Err(Duplicate);
      }
      agents := agents[id := row.(pinned := false)];
      return Ok(());
    }

    /** Other clients act. */
    method Interfere(events: seq<Event>)
      modifies this
      ensures Whole() == Played(old(Whole()), events)
    {
      var t := Played(Whole(), events);
      agents, pointer, pending := t.s.agents, t.s.pointer, t.pending;
    }

    /** The built-in agent, created if it is missing and mended; `env` acts between the transactions. */
    method EnsureBuiltinRecord(env: Environment, required: seq<string>) returns (r: Outcome<()>)
      modifies this
      ensures (Whole(), r) == EnsuredBuiltin(old(Whole()), env, required)
      ensures SafeElsewhere(old(Whole())) && HasDefault(old(Value())) ==> HasDefault(Value())
      ensures Quiet(env) ==>
                && r.Ok? && pointer == old(pointer) && pending == old(pending)
                && agents == old(agents)[BUILTIN :=
                     Mended(if BUILTIN in old(agents) then old(agents)[BUILTIN] else BUILTIN_ROW, required)]
    {
      hide Played, Mended, HasDefault, SafeElsewhere;
      ghost var before := Whole();
      var found := BUILTIN in agents;
      Interfere(At(env, 0));
      ghost var first := Whole();
      if !found {
        var created := CreateAgent(BUILTIN, BUILTIN_ROW);
        if created.Err? && BUILTIN !in agents {
          return Err(ConcurrentUpdate);
        }
      }
      assert Whole() ==
        if found then first else first.(s := Committed(first.s, Created(first.s, BUILTIN, BUILTIN_ROW)));
      Interfere(At(env, 1));
      ghost var second := Whole();
      var repaired := RepairBuiltinAgent(BUILTIN, required);
      assert Whole() == second.(s := Committed(second.s, Repaired(second.s, BUILTIN, required)));
      r := if repaired.Ok? then Ok(()) else Err(ConcurrentUpdate);
      if Quiet(env) {
        LeftAlone(before, env, required);
      }
      if SafeElsewhere(before) && HasDefault(before.s) {
        BuiltinKeepsDefault(before, env, required);
      }
    }

    /** Whether the agent the default row named at one moment was eligible at a later one. */
    method DefaultIsEligible(events: seq<Event>) returns (eligible: bool, version: nat)
      modifies this
      ensures Whole() == Played(old(Whole()), events)
      ensures version == PointerVersion(old(Value()))
      ensures eligible <==> Answers(old(Value()), Value())
    {
      var default := DefaultId(Value());
      version := PointerVersion(Value());
      Interfere(events);
      eligible := default.Some? && default.value != "" && default.value in agents && Eligible(agents[default.value]);
    }

    /**
     While that is reliable a normal return leaves an eligible default, whatever other clients do.  Left alone it
     returns normally exactly when there is one already or the built-in agent is, or can be made, one.
     */
    method EnsureDefaultAgent(env: Environment, required: seq<string>) returns (r: Outcome<()>)
      modifies this
      ensures (Whole(), r) == Ensured(old(Whole()), env, required)
      ensures Reliable(old(Whole())) && r.Ok? ==> HasDefault(Value())
      ensures Safe(old(Whole())) && HasDefault(old(Value())) ==> HasDefault(Value())
      ensures Quiet(env) ==>
                (r.Ok? <==> || (HasDefault(old(Value())) && DefaultId(old(Value())) != Some(""))
                            || BUILTIN !in old(agents) || ForEveryProject(old(agents)[BUILTIN]))
    {
      hide Played, EnsuredBuiltin, HasDefault, Safe, Reliable, Shrinks, ForEveryProject, SafeElsewhere, Mended,
           Eligible, DefaultId;
      ghost var before := Whole();
      EnsuredHolds(before, env, required);
      var builtin := EnsureBuiltinRecord(env, required);
      if builtin.Err? {
        return Err(builtin.error);
      }
      for i := 0 to ATTEMPTS
        invariant Tried(Whole(), env, i) == Ensured(before, env, required)
      {
        var eligible, version := DefaultIsEligible(At(env, 2 * i + 2));
        if eligible {
          return Ok(());
        }
        Interfere(At(env, 2 * i + 3));
        var outcome := SetDefaultId(BUILTIN, version);
        if outcome.Ok? {
          return Ok(());
        }
        if outcome.error != ConcurrentUpdate {
          return Err(outcome.error);
        }
      }
      var eligible, _ := DefaultIsEligible(At(env, 2 * ATTEMPTS + 2));
      if !eligible {
        return Err(ConcurrentUpdate);
      }
      return Ok(());
    }
  }
}
