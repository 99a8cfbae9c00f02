/**
 What a team is published from (backend/app/collaboration/service.py, `_trusted_definition`): the draft in
 normal form, with every member's agent captured from the platform as it stands at that moment.
 */
module TeamService {
  import opened Outcomes
  import opened Utf8
  import opened Json
  import opened Canonical
  import opened PyDict
  import opened TeamDefinition

  // ---------- the platform at the moment of publication ----------

  datatype Tool = Tool(
    toolId: string, version: string, name: string, description: string, source: string, riskLevel: string,
    inputSchema: Dict, outputSchema: Dict,
    sourceResourceId: Option<string>, sourceCapabilityId: Option<string>,
    sourceAvailable: bool, requiresApproval: bool, published: bool, enabled: bool)

  datatype Skill = Skill(
    name: string, description: string, version: string, content: string, source: string, enabled: bool,
    tags: seq<string>, metadata: Dict, fileCount: int, updatedAt: string)

  datatype Model = Model(id: string, enabled: bool)

  datatype Provider = Provider(configured: bool, enabled: bool, models: seq<Model>)

  datatype Agent = Agent(
    id: string, name: string, description: string, runtimeForm: string, language: string,
    providerId: string, model: string, systemPrompt: string, contextPrompt: string, approvalPolicy: string,
    enabled: bool, availabilityScope: string, unitId: Option<string>, projectId: Option<string>,
    allowedProjects: seq<string>, allow: Whitelists)

  /** Agents, tools, skills and providers by the id they are asked for. */
  datatype Platform = Platform(
    agents: map<string, Agent>,
    tools: map<string, Tool>,
    skills: map<string, Skill>,
    providers: map<string, Provider>,
    activeProvider: string,
    activeModel: string)

  datatype Scope = Scope(unitId: string, projectId: string)

  datatype Ceilings = Ceilings(maxMembers: int, maxSubagents: int, maxSteps: int, maxParallel: int)

  // ---------- captured dictionaries ----------

  const TOOL_KEYS: seq<string> :=
    ["tool_id", "version", "name", "description", "source", "risk_level", "input_schema", "output_schema",
     "source_resource_id", "source_capability_id", "source_available", "requires_approval", "published", "enabled"]

  lemma ToolKeysDistinct()
    ensures Distinct(TOOL_KEYS)
  {
  }

  function ToolValues(t: Tool): (r: seq<Json>)
    ensures |r| == |TOOL_KEYS|
    ensures forall i :: 0 <= i < |r| ==> WellFormed(r[i])
  {
    [Str(t.toolId), Str(t.version), Str(t.name), Str(t.description), Str(t.source), Str(t.riskLevel),
     t.inputSchema, t.outputSchema, OptionText(t.sourceResourceId), OptionText(t.sourceCapabilityId),
     Bool(t.sourceAvailable), Bool(t.requiresApproval), Bool(t.published), Bool(t.enabled)]
  }

  function ToolJson(t: Tool): Dict {
    ToolKeysDistinct();
    Zip(TOOL_KEYS, ToolValues(t))
  }

  const SKILL_KEYS: seq<string> :=
    ["name", "description", "version", "content", "source", "enabled", "tags", "metadata", "file_count",
     "updated_at"]

  lemma SkillKeysDistinct()
    ensures Distinct(SKILL_KEYS)
  {
  }

  function SkillValues(s: Skill): (r: seq<Json>)
    ensures |r| == |SKILL_KEYS|
    ensures forall i :: 0 <= i < |r| ==> WellFormed(r[i])
  {
    [Str(s.name), Str(s.description), Str(s.version), Str(s.content), Str(s.source), Bool(s.enabled),
     TextArray(s.tags), s.metadata, Int(s.fileCount), Str(s.updatedAt)]
  }

  function SkillJson(s: Skill): Dict {
    SkillKeysDistinct();
    Zip(SKILL_KEYS, SkillValues(s))
  }

  function ToolsJson(ts: seq<Tool>): Json {
    Arr(seq(|ts|, i requires 0 <= i < |ts| => ToolJson(ts[i])))
  }

  function SkillsJson(ss: seq<Skill>): Json {
    Arr(seq(|ss|, i requires 0 <= i < |ss| => SkillJson(ss[i])))
  }

  const PROFILE_KEYS: seq<string> :=
    ["id", "name", "description", "runtime_form", "language", "provider_id", "model", "system_prompt",
     "context_prompt", "approval_policy"]

  const BINDING_KEYS: seq<string> :=
    ["enabled", "availability_scope", "unit_id", "project_id", "allowed_project_ids", "skill_names", "skills",
     "tool_ids", "knowledge_source_ids", "tools", "knowledge_sources"]

  const AGENT_KEYS: seq<string> := PROFILE_KEYS + BINDING_KEYS

  lemma AgentKeysDistinct()
    ensures Distinct(AGENT_KEYS)
  {
    ProfileKeysDistinct();
    BindingKeysDistinct();
    assert forall i, j :: 0 <= i < |PROFILE_KEYS| && 0 <= j < |BINDING_KEYS| ==> PROFILE_KEYS[i] != BINDING_KEYS[j];
    DistinctAppend(PROFILE_KEYS, BINDING_KEYS);
  }

  lemma ProfileKeysDistinct()
    ensures Distinct(PROFILE_KEYS)
  {
  }

  lemma BindingKeysDistinct()
    ensures Distinct(BINDING_KEYS)
  {
  }

  function ProfileValues(a: Agent, provider: string, model: string): (r: seq<Json>)
    ensures |r| == |PROFILE_KEYS|
    ensures forall i :: 0 <= i < |r| ==> r[i].Str? && WellFormed(r[i])
  {
    [Str(a.id), Str(a.name), Str(a.description), Str(a.runtimeForm), Str(a.language), Str(provider), Str(model),
     Str(a.systemPrompt), Str(a.contextPrompt), Str(a.approvalPolicy)]
  }

  function BindingValues(a: Agent, skills: seq<Skill>, tools: seq<Tool>, knowledge: seq<Tool>): (r: seq<Json>)
    ensures |r| == |BINDING_KEYS|
    ensures forall i :: 0 <= i < |r| ==> WellFormed(r[i])
  {
    [Bool(true), Str(a.availabilityScope), OptionText(a.unitId), OptionText(a.projectId),
     TextArray(a.allowedProjects), TextArray(a.allow.skills), SkillsJson(skills), TextArray(a.allow.tools),
     TextArray(a.allow.knowledge), ToolsJson(tools), ToolsJson(knowledge)]
  }

  function AgentJson(a: Agent, provider: string, model: string, skills: seq<Skill>, tools: seq<Tool>,
                     knowledge: seq<Tool>): Dict
  {
    AgentKeysDistinct();
    Zip(AGENT_KEYS, ProfileValues(a, provider, model) + BindingValues(a, skills, tools, knowledge))
  }

  // ---------- resolving what an agent is bound to ----------

  function ResolveBindable(p: Platform, ids: seq<string>): (r: Normalized<seq<Tool>>)
    ensures r.Ok? ==> |r.value| == |ids|
    ensures r.Ok? ==> forall i :: 0 <= i < |ids| ==> ids[i] in p.tools && r.value[i] == p.tools[ids[i]]
  {
    if ids == [] then Ok([])
    else if ids[0] !in p.tools then Err(InvalidDefinition("tools"))
    else
      var tool := p.tools[ids[0]];
      if !tool.published || !tool.enabled || !tool.sourceAvailable then Err(InvalidDefinition("tools"))
      else
        var rest :- ResolveBindable(p, ids[1..]);
        Ok([tool] + rest)
  }

  function ResolveKnowledge(p: Platform, ids: seq<string>): (r: Normalized<seq<Tool>>)
    ensures r.Ok? ==> ResolveBindable(p, ids) == r
  {
    var resolved :- ResolveBindable(p, ids);
    if exists t :: t in resolved && t.source != "knowledge" then Err(InvalidDefinition("knowledge"))
    else Ok(resolved)
  }

  function ResolveSkills(p: Platform, names: seq<string>): (r: Normalized<seq<Skill>>)
    ensures r.Ok? ==> |r.value| == |names|
    ensures r.Ok? ==> forall i :: 0 <= i < |names| ==> names[i] in p.skills && r.value[i] == p.skills[names[i]]
  {
    if names == [] then Ok([])
    else if names[0] !in p.skills || !p.skills[names[0]].enabled then Err(InvalidDefinition("skills"))
    else
      var rest :- ResolveSkills(p, names[1..]);
      Ok([p.skills[names[0]]] + rest)
  }

  predicate AgentIsAvailable(a: Agent, scope: Scope) {
    if a.availabilityScope == "project" then
      a.unitId == Some(scope.unitId) && a.projectId == Some(scope.projectId) && a.allowedProjects == []
    else
      && a.availabilityScope == "common"
      && a.unitId.None? && a.projectId.None?
      && a.allowedProjects != []
      && ("*" in a.allowedProjects || scope.projectId in a.allowedProjects)
      && ("*" !in a.allowedProjects || a.allowedProjects == ["*"])
  }

  function FirstModel(models: seq<Model>, id: string): Option<Model> {
    if models == [] then None
    else if models[0].id == id then Some(models[0])
    else FirstModel(models[1..], id)
  }

  /** The agent's own model, or the platform's active one when the agent names none. */
  function ResolveModel(p: Platform, a: Agent): Normalized<(string, string)> {
    var own := a.providerId != "" && a.model != "";
    var provider, model := if own then a.providerId else p.activeProvider, if own then a.model else p.activeModel;
    if provider !in p.providers then Err(InvalidDefinition("provider"))
    else
      var row := p.providers[provider];
      var chosen := FirstModel(row.models, model);
      if !row.configured || !row.enabled || chosen.None? || !chosen.value.enabled then
        Err(InvalidDefinition("model"))
      else Ok((provider, model))
  }

  /** An agent as it is frozen into a published team, and the bindings it had. */
  datatype Capture = Capture(agent: Dict, allow: Whitelists)

  function CaptureAgent(p: Platform, scope: Scope, agentId: string): Normalized<Capture> {
    if agentId !in p.agents then Err(InvalidDefinition("agent"))
    else
      var a := p.agents[agentId];
      if !a.enabled || !AgentIsAvailable(a, scope) then Err(InvalidDefinition("agent"))
      else
        var model :- ResolveModel(p, a);
        var tools :- ResolveBindable(p, a.allow.tools);
        var skills :- ResolveSkills(p, a.allow.skills);
        var knowledge :- ResolveKnowledge(p, a.allow.knowledge);
        Ok(Capture(AgentJson(a, model.0, model.1, skills, tools, knowledge), a.allow))
  }

  /** What `f` gives for each id in turn, or the first exception. */
  function Collect<T>(f: string -> Normalized<T>, ids: seq<string>): (r: Normalized<seq<T>>)
    ensures r.Ok? ==> |r.value| == |ids|
    ensures r.Ok? ==> forall i :: 0 <= i < |ids| ==> f(ids[i]) == Ok(r.value[i])
  {
    if ids == [] then Ok([])
    else
      var n := |ids| - 1;
      var earlier :- Collect(f, ids[..n]);
      var last :- f(ids[n]);
      Ok(earlier + [last])
  }

  function CaptureEveryone(p: Platform, scope: Scope, ms: seq<Member>): (r: Normalized<seq<Capture>>)
    ensures r.Ok? ==> |r.value| == |ms|
    ensures r.Ok? ==> forall i :: 0 <= i < |ms| ==> CaptureAgent(p, scope, ms[i].agentId) == Ok(r.value[i])
  {
    var r := Collect(id => CaptureAgent(p, scope, id), AgentIds(ms));
    assert r.Ok? ==> forall i :: 0 <= i < |ms| ==> AgentIds(ms)[i] == ms[i].agentId;
    r
  }

  // ---------- limits and whitelists ----------

  function Min(a: int, b: int): int {
    if a <= b then a else b
  }

  predicate WithinCeilings(d: Definition, c: Ceilings) {
    && 1 + |d.members| <= c.maxMembers
    && |d.members| <= c.maxSubagents
    && d.settings.maxSteps <= c.maxSteps
    && d.settings.maxParallel <= Min(Min(c.maxParallel, c.maxSubagents), |d.members|)
  }

  predicate AllIn(xs: seq<string>, ys: seq<string>) {
    forall x :: x in xs ==> x in ys
  }

  predicate InSome(xs: seq<string>, yss: seq<seq<string>>) {
    forall x :: x in xs ==> exists ys :: ys in yss && x in ys
  }

  function Lists(cs: seq<Capture>, list: Whitelists -> seq<string>): seq<seq<string>> {
    seq(|cs|, i requires 0 <= i < |cs| => list(cs[i].allow))
  }

  predicate MemberWithin(m: Whitelists, team: Whitelists, agent: Whitelists) {
    && AllIn(m.tools, team.tools) && AllIn(m.tools, agent.tools)
    && AllIn(m.skills, team.skills) && AllIn(m.skills, agent.skills)
    && AllIn(m.knowledge, team.knowledge) && AllIn(m.knowledge, agent.knowledge)
  }

  predicate WhitelistsHold(d: Definition, cs: seq<Capture>)
    requires |cs| == |Everyone(d)|
  {
    && InSome(d.allow.tools, Lists(cs, (a: Whitelists) => a.tools))
    && InSome(d.allow.skills, Lists(cs, (a: Whitelists) => a.skills))
    && InSome(d.allow.knowledge, Lists(cs, (a: Whitelists) => a.knowledge))
    && forall i :: 0 <= i < |cs| ==> MemberWithin(Everyone(d)[i].allow, d.allow, cs[i].allow)
  }

  function CheckCurrentCapabilities(p: Platform, a: Whitelists): Normalized<()> {
    var _ :- ResolveBindable(p, a.tools);
    var _ :- ResolveSkills(p, a.skills);
    var _ :- ResolveKnowledge(p, a.knowledge);
    Ok(())
  }

  // ---------- the trusted definition ----------

  type Hash = seq<byte> -> string

  /** `hashlib.sha256(canonical bytes).hexdigest()`, for whatever function stands for SHA-256. */
  function Digest(h: Hash, v: Json): string {
    h(Bytes(v))
  }

  /** The members with their captured agents, as records. */
  function WithCaptures(h: Hash, ms: seq<Member>, cs: seq<Capture>): (r: seq<Member>)
    requires |ms| == |cs|
    ensures |r| == |ms|
  {
    seq(|ms|, i requires 0 <= i < |ms| =>
      ms[i].(captured := Some(Captured(Digest(h, cs[i].agent), cs[i].agent))))
  }

  /** The normal form the trusted dictionary stands for. */
  function TrustedRecord(h: Hash, name: string, description: string, d: Definition, cs: seq<Capture>): Definition
    requires |cs| == |Everyone(d)|
  {
    var ms := WithCaptures(h, Everyone(d), cs);
    d.(supervisor := ms[0], members := ms[1..], name := Some(name), description := Some(description))
  }

  /** `dict[key] = value` on a copy: a key that is there keeps its place, a new one goes last. */
  function SetKey(fields: seq<Field>, key: string, value: Json): seq<Field> {
    if fields == [] then [Field(key, value)]
    else if fields[0].key == key then [Field(key, value)] + fields[1..]
    else [fields[0]] + SetKey(fields[1..], key, value)
  }

  /** A member of the trusted dictionary: the normal member, then the definition, then its digest. */
  function TrustedMemberJson(h: Hash, m: Member, c: Capture): Json {
    var withAgent := SetKey(MemberJson(m).fields, "agent_definition", c.agent);
    Obj(SetKey(withAgent, "agent_definition_digest", Str(Digest(h, c.agent))))
  }

  function TrustedMembersJson(h: Hash, ms: seq<Member>, cs: seq<Capture>): seq<Json>
    requires |ms| == |cs|
  {
    seq(|ms|, i requires 0 <= i < |ms| => TrustedMemberJson(h, ms[i], cs[i]))
  }

  /** The trusted dictionary in the order the service writes its keys. */
  function TrustedJson(h: Hash, name: string, description: string, d: Definition, cs: seq<Capture>): Json
    requires |cs| == |Everyone(d)|
  {
    var ms := TrustedMembersJson(h, Everyone(d), cs);
    Obj(LabelFields(name, description) + (RosterFields(ms[0], Arr(ms[1..])) + LimitFields(d.allow, d.settings)))
  }

  function LabelFields(name: string, description: string): seq<Field> {
    [Field("name", Str(name)), Field("description", Str(description))]
  }

  /** The checked draft and the captured agents, before they are put together. */
  function Gather(p: Platform, ceilings: Ceilings, scope: Scope, draft: Json)
    : (r: Normalized<(Definition, seq<Capture>)>)
    ensures r.Ok? ==>
              && NormalizeDefinition(draft) == Ok(r.value.0)
              && CaptureEveryone(p, scope, Everyone(r.value.0)) == Ok(r.value.1)
              && WhitelistsHold(r.value.0, r.value.1)
              && WithinCeilings(r.value.0, ceilings)
  {
    var d :- NormalizeDefinition(draft);
    if !WithinCeilings(d, ceilings) then Err(InvalidDefinition("ceilings"))
    else
      var cs :- CaptureEveryone(p, scope, Everyone(d));
      if !WhitelistsHold(d, cs) then Err(InvalidDefinition("whitelists"))
      else
        var _ :- CheckCurrentCapabilities(p, d.allow);
        Ok((d, cs))
  }

  function TrustedDefinition(h: Hash, p: Platform, ceilings: Ceilings, scope: Scope, name: string,
                             description: string, draft: Json): Normalized<Json>
  {
    var gathered :- Gather(p, ceilings, scope, draft);
    Ok(TrustedJson(h, name, description, gathered.0, gathered.1))
  }

  /** The capturing loop of the service, which fills a dictionary by agent id. */
  method CollectByAgent<T>(f: string -> Normalized<T>, ids: seq<string>) returns (r: Normalized<map<string, T>>)
    requires Distinct(ids)
    ensures r.Ok? <==> Collect(f, ids).Ok?
    ensures r.Err? ==> Collect(f, ids) == Err(r.error)
    ensures r.Ok? ==> forall id :: id in r.value <==> id in ids
    ensures r.Ok? ==> forall i :: 0 <= i < |ids| ==> ids[i] in r.value && r.value[ids[i]] == Collect(f, ids).value[i]
  {
    var captured: map<string, T> := map[];
    ghost var done: seq<T> := [];
    assert ids[..|ids|] == ids;
    for i := 0 to |ids|
      invariant Collect(f, ids[..i]) == Ok(done)
      invariant forall id :: id in captured <==> id in ids[..i]
      invariant forall k :: 0 <= k < i ==> ids[k] in captured && captured[ids[k]] == done[k]
    {
      assert ids[..i + 1][..i] == ids[..i];
      var one := f(ids[i]);
      if one.Err? {
        CollectFailure(f, ids, i + 1);
        return Err(one.error);
      }
      captured := captured[ids[i] := one.value];
      done := done + [one.value];
    }
    return Ok(captured);
  }

  /** Once one id fails, the whole collection fails with the same exception. */
  lemma {:induction false} CollectFailure<T>(f: string -> Normalized<T>, ids: seq<string>, n: nat)
    requires n <= |ids| && Collect(f, ids[..n]).Err?
    ensures Collect(f, ids).Err? && Collect(f, ids).error == Collect(f, ids[..n]).error
  {
    if n == |ids| {
      assert ids[..n] == ids;
    } else {
      assert ids[..|ids| - 1][..n] == ids[..n];
      CollectFailure(f, ids[..|ids| - 1], n);
    }
  }
}
