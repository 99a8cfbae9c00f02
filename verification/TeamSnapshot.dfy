/**
 What an execution snapshot demands of a published team version (backend/app/runtime/execution_snapshot.py,
 `_team_member_snapshot`, `_verify_team_version` and the team branch of `create`).
 */
module TeamSnapshot {
  import opened Outcomes
  import opened Json
  import opened Canonical
  import opened PyDict
  import opened TeamDefinition
  import opened TeamRows
  import opened TeamService

  datatype SnapshotError =
    | DefinitionMissing
    | AgentDigestMismatch
    | DefinitionIncomplete
    | TeamDigestMismatch
    | MemberMissing
    | MemberCountMismatch
    | MemberMismatch
    | EffectiveStateMismatch
    | CapabilityMissing

  type Checked<+T> = Result<T, SnapshotError>

  // ---------- shapes of captured dictionaries ----------

  datatype Kind = Text | OptionalText | Flag | Object | Number | OptionalNumber | Texts | Anything

  predicate HasKind(v: Json, k: Kind) {
    match k
    case Text => v.Str?
    case OptionalText => v.Str? || v.Null?
    case Flag => v.Bool?
    case Object => v.Obj?
    case Number => v.Int?
    case OptionalNumber => v.Int? || v.Null?
    case Texts => v.Arr? && forall x :: x in v.items ==> x.Str?
    case Anything => true
  }

  datatype Slot = Slot(key: string, kind: Kind, required: bool)

  /** A model that forbids extra keys: every entry has a slot of its kind and no required slot is empty. */
  predicate Conforms(v: Json, slots: seq<Slot>) {
    && v.Obj?
    && (forall f :: f in v.fields ==> exists s :: s in slots && s.key == f.key && HasKind(f.value, s.kind))
    && (forall s :: s in slots && s.required ==> Get(v, s.key).Some?)
  }

  const TOOL_SLOTS: seq<Slot> :=
    [Slot("tool_id", Text, true), Slot("version", Text, true), Slot("name", Text, true),
     Slot("description", Text, true), Slot("source", Text, false), Slot("risk_level", Text, false),
     Slot("input_schema", Object, true), Slot("output_schema", Object, false),
     Slot("source_resource_id", OptionalText, false), Slot("source_capability_id", OptionalText, false),
     Slot("source_available", Flag, true), Slot("requires_approval", Flag, false),
     Slot("published", Flag, true), Slot("enabled", Flag, true)]

  const KNOWLEDGE_SLOTS: seq<Slot> :=
    [Slot("tool_id", Text, true), Slot("version", Text, false), Slot("name", Text, false),
     Slot("description", Text, false), Slot("source", Text, false), Slot("risk_level", Text, false),
     Slot("input_schema", Object, false), Slot("output_schema", Object, false),
     Slot("source_resource_id", OptionalText, false), Slot("source_capability_id", OptionalText, false),
     Slot("source_available", Flag, false), Slot("requires_approval", Flag, false),
     Slot("published", Flag, false), Slot("enabled", Flag, false)]

  const SKILL_SLOTS: seq<Slot> :=
    [Slot("name", Text, true), Slot("description", Text, false), Slot("version", Text, false),
     Slot("content", Text, false), Slot("source", Text, false), Slot("enabled", Flag, false),
     Slot("tags", Texts, false), Slot("metadata", Object, false), Slot("file_count", Number, false),
     Slot("updated_at", OptionalText, false), Slot("skill_id", OptionalText, false),
     Slot("version_id", OptionalText, false), Slot("package_digest", OptionalText, false),
     Slot("object_key", OptionalText, false), Slot("archive_sha256", OptionalText, false),
     Slot("size_bytes", OptionalNumber, false), Slot("files", Anything, false)]

  // ---------- one member ----------

  /** The keys of a member that a snapshot reads, from a stored dictionary or from a member row. */
  datatype MemberView = MemberView(
    agentId: Json, role: Json, responsibility: Json,
    tools: Json, skills: Json, knowledge: Json,
    agent: Json, digest: Json)

  function ViewOfDict(v: Json): MemberView {
    MemberView(GetOr(v, "agent_id", Null), GetOr(v, "role", Null), GetOr(v, "responsibility", Null),
               GetOr(v, "tool_ids", Null), GetOr(v, "skill_names", Null), GetOr(v, "knowledge_source_ids", Null),
               GetOr(v, "agent_definition", Null), GetOr(v, "agent_definition_digest", Null))
  }

  function ViewOfRow(r: MemberRow): MemberView {
    MemberView(Str(r.agentId), Str(r.role), Str(r.responsibility),
               TextArray(r.allow.tools), TextArray(r.allow.skills), TextArray(r.allow.knowledge),
               r.agent, OptionText(r.digest))
  }

  /** The last of the items that has `id` under `key`, as building a dictionary in a loop leaves it. */
  function LastWith(items: seq<Json>, key: string, id: Json): Option<Json> {
    if items == [] then None
    else
      var n := |items| - 1;
      if Get(items[n], key) == Some(id) then Some(items[n]) else LastWith(items[..n], key, id)
  }

  predicate AllKeyed(items: seq<Json>, key: string) {
    forall x :: x in items ==> Get(x, key).Some?
  }

  function SelectAll(items: seq<Json>, key: string, ids: seq<Json>, slots: seq<Slot>): (r: Checked<seq<Json>>)
    ensures r.Ok? ==> |r.value| == |ids|
    ensures r.Ok? ==> forall i :: 0 <= i < |ids| ==> LastWith(items, key, ids[i]) == Some(r.value[i])
    ensures r.Ok? <==> forall id :: id in ids ==>
                         LastWith(items, key, id).Some? && Conforms(LastWith(items, key, id).value, slots)
  {
    if ids == [] then Ok([])
    else
      var found := LastWith(items, key, ids[0]);
      if found.None? || !Conforms(found.value, slots) then
        assert ids[0] in ids;
        Err(DefinitionIncomplete)
      else
        var rest :- SelectAll(items, key, ids[1..], slots);
        Ok([found.value] + rest)
  }

  /** The captured items a member's whitelist names, each found and of the right shape. */
  function Select(agent: Json, list: string, key: string, ids: Json, slots: seq<Slot>): Checked<seq<Json>> {
    var items := GetOr(agent, list, Arr([]));
    if !items.Arr? || !AllKeyed(items.items, key) || !ids.Arr? then Err(DefinitionIncomplete)
    else SelectAll(items.items, key, ids.items, slots)
  }

  datatype SnapshotMember = SnapshotMember(
    view: MemberView, tools: seq<Json>, skills: seq<Json>, knowledge: seq<Json>)

  function TeamMemberSnapshot(h: Hash, m: MemberView): Checked<SnapshotMember> {
    if !m.agent.Obj? || !m.digest.Str? || m.digest.s == "" then Err(DefinitionMissing)
    else if Digest(h, m.agent) != m.digest.s then Err(AgentDigestMismatch)
    else if exists k :: k in PROFILE_KEYS && !GetOr(m.agent, k, Null).Str? then Err(DefinitionIncomplete)
    else
      var tools :- Select(m.agent, "tools", "tool_id", m.tools, TOOL_SLOTS);
      var skills :- Select(m.agent, "skills", "name", m.skills, SKILL_SLOTS);
      var knowledge :- Select(m.agent, "knowledge_sources", "tool_id", m.knowledge, KNOWLEDGE_SLOTS);
      if !m.agentId.Str? || m.role !in [Str(SUPERVISOR), Str(MEMBER)] || !m.responsibility.Str? then
        Err(DefinitionIncomplete)
      else Ok(SnapshotMember(m, tools, skills, knowledge))
  }

  // ---------- the whole version ----------

  function InsertByPosition(r: MemberRow, rows: seq<MemberRow>): seq<MemberRow> {
    if rows == [] || r.position <= rows[0].position then [r] + rows
    else [rows[0]] + InsertByPosition(r, rows[1..])
  }

  function SortByPosition(rows: seq<MemberRow>): seq<MemberRow> {
    if rows == [] then [] else InsertByPosition(rows[0], SortByPosition(rows[1..]))
  }

  /** The row says of the member at this position exactly what the dictionary says. */
  predicate Mirrors(row: MemberRow, defined: Json, position: int) {
    var actual, expected := ViewOfRow(row), ViewOfDict(defined);
    && row.position == position
    && DictEq(actual.agentId, expected.agentId)
    && DictEq(actual.role, expected.role)
    && DictEq(actual.responsibility, expected.responsibility)
    && DictEq(actual.tools, expected.tools)
    && DictEq(actual.skills, expected.skills)
    && DictEq(actual.knowledge, expected.knowledge)
    && DictEq(actual.agent, expected.agent)
    && DictEq(actual.digest, expected.digest)
  }

  function VerifyMember(h: Hash, row: MemberRow, defined: Json, position: int): Checked<SnapshotMember> {
    var _ :- TeamMemberSnapshot(h, ViewOfRow(row));
    if !Mirrors(row, defined, position) then Err(MemberMismatch)
    else TeamMemberSnapshot(h, ViewOfDict(defined))
  }

  /** What `f` gives at 0, 1, ..., n - 1, or the first exception. */
  function Each<T>(f: nat -> Checked<T>, n: nat): (r: Checked<seq<T>>)
    ensures r.Ok? <==> forall i :: 0 <= i < n ==> f(i).Ok?
    ensures r.Ok? ==> |r.value| == n && forall i :: 0 <= i < n ==> f(i) == Ok(r.value[i])
  {
    if n == 0 then Ok([])
    else
      var earlier :- Each(f, n - 1);
      var last :- f(n - 1);
      Ok(earlier + [last])
  }

  function VerifyMembers(h: Hash, rows: seq<MemberRow>, defined: seq<Json>): Checked<seq<SnapshotMember>>
    requires |rows| == |defined|
  {
    Each((i: nat) => if i < |rows| then VerifyMember(h, rows[i], defined[i], i) else Err(MemberMissing), |rows|)
  }

  /** `[definition.get("supervisor"), *definition.get("members", ())]` */
  function DefinedMembers(definition: Json): Checked<seq<Json>> {
    var members := GetOr(definition, "members", Arr([]));
    if !members.Arr? then Err(MemberMissing)
    else
      var all := [GetOr(definition, "supervisor", Null)] + members.items;
      if exists m :: m in all && !m.Obj? then Err(MemberMissing) else Ok(all)
  }

  /** The columns that repeat parts of the dictionary. */
  predicate ColumnsMirror(row: VersionRow) {
    var d := row.definition;
    && DictEq(TextArray(row.allow.tools), GetOr(d, "tool_ids", Null))
    && DictEq(TextArray(row.allow.skills), GetOr(d, "skill_names", Null))
    && DictEq(TextArray(row.allow.knowledge), GetOr(d, "knowledge_source_ids", Null))
    && DictEq(Int(row.settings.maxSteps), GetOr(d, "max_steps", Null))
    && DictEq(Int(row.settings.maxParallel), GetOr(d, "max_parallel_members", Null))
    && DictEq(Int(row.settings.timeout), GetOr(d, "timeout_seconds", Null))
    && DictEq(Str(row.settings.failureStrategy), GetOr(d, "failure_strategy", Null))
    && DictEq(OptionText(row.settings.approvalPolicy), GetOr(d, "approval_policy_id", Null))
  }

  function VerifyTeamVersion(h: Hash, row: VersionRow): Checked<seq<SnapshotMember>> {
    if row.digest.None? || row.digest.value == "" || Digest(h, row.definition) != row.digest.value then
      Err(TeamDigestMismatch)
    else
      var defined :- DefinedMembers(row.definition);
      var rows := SortByPosition(row.members);
      if |rows| != |defined| then Err(MemberCountMismatch)
      else
        var members :- VerifyMembers(h, rows, defined);
        if ColumnsMirror(row) then Ok(members) else Err(EffectiveStateMismatch)
  }

  // ---------- team-wide capabilities ----------

  /** The items of one list over all captured agents, in order. */
  function Pooled(agents: seq<Json>, list: string): Checked<seq<Json>> {
    if agents == [] then Ok([])
    else
      var n := |agents| - 1;
      var earlier :- Pooled(agents[..n], list);
      var items := GetOr(agents[n], list, Arr([]));
      if items.Arr? then Ok(earlier + items.items) else Err(DefinitionIncomplete)
  }

  /** Team-wide selection: every pooled item must have the right shape, and every id must be found. */
  function PoolSelect(agents: seq<Json>, list: string, key: string, ids: Json, slots: seq<Slot>)
    : Checked<seq<Json>>
  {
    var pool :- Pooled(agents, list);
    if !AllKeyed(pool, key) || exists x :: x in pool && !Conforms(x, slots) then Err(DefinitionIncomplete)
    else if !ids.Arr? || exists id :: id in ids.items && LastWith(pool, key, id).None? then Err(CapabilityMissing)
    else SelectAll(pool, key, ids.items, slots)
  }

  datatype Capabilities = Capabilities(tools: seq<Json>, skills: seq<Json>, knowledge: seq<Json>)

  function TeamCapabilities(definition: Json): Checked<Capabilities> {
    var defined :- DefinedMembers(definition);
    var agents := seq(|defined|, i requires 0 <= i < |defined| => GetOr(defined[i], "agent_definition", Null));
    var tools :- PoolSelect(agents, "tools", "tool_id", GetOr(definition, "tool_ids", Null), TOOL_SLOTS);
    var skills :- PoolSelect(agents, "skills", "name", GetOr(definition, "skill_names", Null), SKILL_SLOTS);
    var knowledge :-
      PoolSelect(agents, "knowledge_sources", "tool_id", GetOr(definition, "knowledge_source_ids", Null),
                 KNOWLEDGE_SLOTS);
    Ok(Capabilities(tools, skills, knowledge))
  }

  /** What a run of a published version needs: it verifies and no team-wide lookup misses. */
  predicate Runnable(h: Hash, row: VersionRow) {
    VerifyTeamVersion(h, row).Ok? && TeamCapabilities(row.definition).Ok?
  }
}
