/**
 What a captured agent holds under each key (backend/app/collaboration/service.py, `_trusted_definition`), and exactly
 what a snapshot demands of it (backend/app/runtime/execution_snapshot.py, `_team_member_snapshot`).
 */
module TeamCaptured {
  import opened Outcomes
  import opened Json
  import opened Canonical
  import opened PyDict
  import opened TeamDefinition
  import opened TeamService
  import opened TeamSnapshot

  // ---------- what is captured ----------

  predicate Has(v: Json, key: string, value: Json) {
    Get(v, key) == Some(value)
  }

  function TextOrNull(text: Option<string>): Json {
    match text
    case Some(s) => Str(s)
    case None => Null
  }

  lemma KeyPlaces()
    ensures TOOL_KEYS[0] == "tool_id" && TOOL_KEYS[1] == "version" && TOOL_KEYS[2] == "name"
    ensures TOOL_KEYS[3] == "description" && TOOL_KEYS[4] == "source" && TOOL_KEYS[5] == "risk_level"
    ensures TOOL_KEYS[6] == "input_schema" && TOOL_KEYS[7] == "output_schema"
    ensures TOOL_KEYS[8] == "source_resource_id" && TOOL_KEYS[9] == "source_capability_id"
    ensures TOOL_KEYS[10] == "source_available" && TOOL_KEYS[11] == "requires_approval"
    ensures TOOL_KEYS[12] == "published" && TOOL_KEYS[13] == "enabled"
    ensures SKILL_KEYS[0] == "name" && SKILL_KEYS[1] == "description" && SKILL_KEYS[2] == "version"
    ensures SKILL_KEYS[3] == "content" && SKILL_KEYS[4] == "source" && SKILL_KEYS[5] == "enabled"
    ensures SKILL_KEYS[6] == "tags" && SKILL_KEYS[7] == "metadata" && SKILL_KEYS[8] == "file_count"
    ensures SKILL_KEYS[9] == "updated_at"
  {
  }

  /** A captured tool says what the platform's says. */
  lemma ToolHolds(t: Tool)
    ensures var v := ToolJson(t);
            && Has(v, "tool_id", Str(t.toolId)) && Has(v, "version", Str(t.version)) && Has(v, "name", Str(t.name))
            && Has(v, "description", Str(t.description)) && Has(v, "source", Str(t.source))
            && Has(v, "risk_level", Str(t.riskLevel)) && Has(v, "input_schema", t.inputSchema)
            && Has(v, "output_schema", t.outputSchema)
            && Has(v, "source_resource_id", TextOrNull(t.sourceResourceId))
            && Has(v, "source_capability_id", TextOrNull(t.sourceCapabilityId))
            && Has(v, "source_available", Bool(t.sourceAvailable))
            && Has(v, "requires_approval", Bool(t.requiresApproval))
            && Has(v, "published", Bool(t.published)) && Has(v, "enabled", Bool(t.enabled))
  {
    hide Get;
    ToolKeysDistinct();
    ZipGets(TOOL_KEYS, ToolValues(t));
    KeyPlaces();
    assert forall i :: 0 <= i < 14 ==> Get(ToolJson(t), TOOL_KEYS[i]) == Some(ToolValues(t)[i]);
  }

  /** And a captured skill. */
  lemma SkillHolds(s: Skill)
    ensures var v := SkillJson(s);
            && Has(v, "name", Str(s.name)) && Has(v, "description", Str(s.description))
            && Has(v, "version", Str(s.version)) && Has(v, "content", Str(s.content))
            && Has(v, "source", Str(s.source)) && Has(v, "enabled", Bool(s.enabled))
            && Has(v, "tags", TextArray(s.tags)) && Has(v, "metadata", s.metadata)
            && Has(v, "file_count", Int(s.fileCount)) && Has(v, "updated_at", Str(s.updatedAt))
  {
    hide Get;
    SkillKeysDistinct();
    ZipGets(SKILL_KEYS, SkillValues(s));
    KeyPlaces();
    assert forall i :: 0 <= i < 10 ==> Get(SkillJson(s), SKILL_KEYS[i]) == Some(SkillValues(s)[i]);
  }

  lemma AgentPlaces()
    ensures AGENT_KEYS[0] == "id" && AGENT_KEYS[1] == "name" && AGENT_KEYS[2] == "description"
    ensures AGENT_KEYS[3] == "runtime_form" && AGENT_KEYS[4] == "language" && AGENT_KEYS[5] == "provider_id"
    ensures AGENT_KEYS[6] == "model" && AGENT_KEYS[7] == "system_prompt" && AGENT_KEYS[8] == "context_prompt"
    ensures AGENT_KEYS[9] == "approval_policy" && AGENT_KEYS[10] == "enabled"
    ensures AGENT_KEYS[11] == "availability_scope" && AGENT_KEYS[12] == "unit_id" && AGENT_KEYS[13] == "project_id"
    ensures AGENT_KEYS[14] == "allowed_project_ids" && AGENT_KEYS[15] == "skill_names" && AGENT_KEYS[16] == "skills"
    ensures AGENT_KEYS[17] == "tool_ids" && AGENT_KEYS[18] == "knowledge_source_ids" && AGENT_KEYS[19] == "tools"
    ensures AGENT_KEYS[20] == "knowledge_sources"
  {
  }

  /** The list under `key` holds, id by id, the platform's tools. */
  predicate HasTools(p: Platform, v: Json, key: string, ids: seq<string>) {
    && Get(v, key).Some? && Get(v, key).value.Arr? && |Get(v, key).value.items| == |ids|
    && forall i :: 0 <= i < |ids| ==> ids[i] in p.tools && Get(v, key).value.items[i] == ToolJson(p.tools[ids[i]])
  }

  predicate HasSkills(p: Platform, v: Json, key: string, names: seq<string>) {
    && Get(v, key).Some? && Get(v, key).value.Arr? && |Get(v, key).value.items| == |names|
    && forall i :: 0 <= i < |names| ==>
         names[i] in p.skills && Get(v, key).value.items[i] == SkillJson(p.skills[names[i]])
  }

  lemma AgentGets(a: Agent, provider: string, model: string, skills: seq<Skill>, tools: seq<Tool>, knowledge: seq<Tool>)
    ensures var v := AgentJson(a, provider, model, skills, tools, knowledge);
            && Has(v, "id", Str(a.id)) && Has(v, "name", Str(a.name)) && Has(v, "description", Str(a.description))
            && Has(v, "runtime_form", Str(a.runtimeForm)) && Has(v, "language", Str(a.language))
            && Has(v, "provider_id", Str(provider)) && Has(v, "model", Str(model))
            && Has(v, "system_prompt", Str(a.systemPrompt)) && Has(v, "context_prompt", Str(a.contextPrompt))
            && Has(v, "approval_policy", Str(a.approvalPolicy))
            && Has(v, "enabled", Bool(true)) && Has(v, "availability_scope", Str(a.availabilityScope))
            && Has(v, "unit_id", TextOrNull(a.unitId)) && Has(v, "project_id", TextOrNull(a.projectId))
            && Has(v, "allowed_project_ids", TextArray(a.allowedProjects))
            && Has(v, "skill_names", TextArray(a.allow.skills)) && Has(v, "skills", SkillsJson(skills))
            && Has(v, "tool_ids", TextArray(a.allow.tools))
            && Has(v, "knowledge_source_ids", TextArray(a.allow.knowledge))
            && Has(v, "tools", ToolsJson(tools)) && Has(v, "knowledge_sources", ToolsJson(knowledge))
  {
    hide Get, SkillsJson, ToolsJson, TextArray;
    var values := ProfileValues(a, provider, model) + BindingValues(a, skills, tools, knowledge);
    var v := AgentJson(a, provider, model, skills, tools, knowledge);
    AgentKeysDistinct();
    ZipGets(AGENT_KEYS, values);
    AgentPlaces();
    assert forall i :: 0 <= i < 21 ==> Get(v, AGENT_KEYS[i]) == Some(values[i]);
  }

  /** A captured agent says what the platform's says, with the model it runs on and all it is bound to. */
  lemma CaptureHolds(p: Platform, scope: Scope, id: string)
    requires CaptureAgent(p, scope, id).Ok?
    ensures id in p.agents
    ensures var a, v := p.agents[id], CaptureAgent(p, scope, id).value.agent;
            var own := a.providerId != "" && a.model != "";
            && Has(v, "id", Str(a.id)) && Has(v, "name", Str(a.name)) && Has(v, "description", Str(a.description))
            && Has(v, "runtime_form", Str(a.runtimeForm)) && Has(v, "language", Str(a.language))
            && Has(v, "provider_id", Str(if own then a.providerId else p.activeProvider))
            && Has(v, "model", Str(if own then a.model else p.activeModel))
            && Has(v, "system_prompt", Str(a.systemPrompt)) && Has(v, "context_prompt", Str(a.contextPrompt))
            && Has(v, "approval_policy", Str(a.approvalPolicy))
            && Has(v, "enabled", Bool(true)) && Has(v, "availability_scope", Str(a.availabilityScope))
            && Has(v, "unit_id", TextOrNull(a.unitId)) && Has(v, "project_id", TextOrNull(a.projectId))
            && Has(v, "allowed_project_ids", TextArray(a.allowedProjects))
            && Has(v, "skill_names", TextArray(a.allow.skills)) && HasSkills(p, v, "skills", a.allow.skills)
            && Has(v, "tool_ids", TextArray(a.allow.tools)) && HasTools(p, v, "tools", a.allow.tools)
            && Has(v, "knowledge_source_ids", TextArray(a.allow.knowledge))
            && HasTools(p, v, "knowledge_sources", a.allow.knowledge)
  {
    hide Get, ResolveBindable, ResolveSkills, ResolveKnowledge, AgentIsAvailable, FirstModel, AgentJson, ToolJson,
         SkillJson, TextArray;
    var a := p.agents[id];
    var model := ResolveModel(p, a).value;
    var tools := ResolveBindable(p, a.allow.tools).value;
    var skills := ResolveSkills(p, a.allow.skills).value;
    var knowledge := ResolveKnowledge(p, a.allow.knowledge).value;
    AgentGets(a, model.0, model.1, skills, tools, knowledge);
  }

  // ---------- what a snapshot demands ----------

  /** The entries of a captured tool: what may stand under which key. */
  predicate ToolField(f: Field) {
    || (f.value.Str? && f.key in ["tool_id", "version", "name", "description", "source", "risk_level"])
    || (f.value.Obj? && f.key in ["input_schema", "output_schema"])
    || ((f.value.Str? || f.value.Null?) && f.key in ["source_resource_id", "source_capability_id"])
    || (f.value.Bool? && f.key in ["source_available", "requires_approval", "published", "enabled"])
  }

  predicate SkillField(f: Field) {
    || (f.value.Str? && f.key in ["name", "description", "version", "content", "source"])
    || (f.value.Bool? && f.key == "enabled")
    || (f.value.Arr? && f.key == "tags" && forall x :: x in f.value.items ==> x.Str?)
    || (f.value.Obj? && f.key == "metadata")
    || (f.value.Int? && f.key == "file_count")
    || ((f.value.Str? || f.value.Null?)
        && f.key in ["updated_at", "skill_id", "version_id", "package_digest", "object_key", "archive_sha256"])
    || ((f.value.Int? || f.value.Null?) && f.key == "size_bytes")
    || f.key == "files"
  }

  predicate HasAll(v: Json, keys: seq<string>) {
    forall key :: key in keys ==> Get(v, key).Some?
  }

  predicate KnowledgeShaped(v: Json) {
    v.Obj? && (forall f :: f in v.fields ==> ToolField(f)) && HasAll(v, ["tool_id"])
  }

  predicate ToolShaped(v: Json) {
    && KnowledgeShaped(v)
    && HasAll(v, ["version", "name", "description", "input_schema", "source_available", "published", "enabled"])
  }

  predicate SkillShaped(v: Json) {
    v.Obj? && (forall f :: f in v.fields ==> SkillField(f)) && HasAll(v, ["name"])
  }

  /** The slot is that of the field and of its kind. */
  predicate Fits(f: Field, s: Slot) {
    s.key == f.key && HasKind(f.value, s.kind)
  }

  predicate Slotted(f: Field, slots: seq<Slot>) {
    exists i :: 0 <= i < |slots| && Fits(f, slots[i])
  }

  lemma ConformsIs(v: Json, slots: seq<Slot>)
    ensures Conforms(v, slots) <==>
            && v.Obj?
            && (forall f :: f in v.fields ==> Slotted(f, slots))
            && (forall key :: key in Required(slots) ==> Get(v, key).Some?)
  {
    hide Get, HasKind;
    forall s | s in slots && s.required ensures s.key in Required(slots) {
      var i :| 0 <= i < |slots| && slots[i] == s;
    }
  }

  /** Knowledge sources have the entries tools have. */
  lemma SlotsAlike(i: nat)
    requires i < 14
    ensures |TOOL_SLOTS| == |KNOWLEDGE_SLOTS| == 14
    ensures TOOL_SLOTS[i].key == KNOWLEDGE_SLOTS[i].key && TOOL_SLOTS[i].kind == KNOWLEDGE_SLOTS[i].kind
  {
  }

  lemma SlottedAlike(f: Field)
    ensures Slotted(f, KNOWLEDGE_SLOTS) <==> Slotted(f, TOOL_SLOTS)
  {
    hide TOOL_SLOTS, KNOWLEDGE_SLOTS, HasKind;
    var t, k := TOOL_SLOTS, KNOWLEDGE_SLOTS;
    forall i | 0 <= i < 14 ensures |t| == |k| == 14 && (Fits(f, t[i]) <==> Fits(f, k[i])) {
      SlotsAlike(i);
    }
    SlotsAlike(0);
    if Slotted(f, t) {
      var i :| 0 <= i < |t| && Fits(f, t[i]);
      assert Fits(f, k[i]);
    }
    if Slotted(f, k) {
      var i :| 0 <= i < |k| && Fits(f, k[i]);
      assert Fits(f, t[i]);
    }
  }

  lemma ToolFieldIs(f: Field)
    ensures Slotted(f, TOOL_SLOTS) <==> ToolField(f)
  {
    var t := TOOL_SLOTS;
    if !Slotted(f, t) {
      assert !Fits(f, t[0]) && !Fits(f, t[1]) && !Fits(f, t[2]) && !Fits(f, t[3]) && !Fits(f, t[4]);
      assert !Fits(f, t[5]) && !Fits(f, t[6]) && !Fits(f, t[7]) && !Fits(f, t[8]) && !Fits(f, t[9]);
      assert !Fits(f, t[10]) && !Fits(f, t[11]) && !Fits(f, t[12]) && !Fits(f, t[13]);
    }
  }

  lemma SkillFieldFits(f: Field, i: nat)
    requires i < |SKILL_SLOTS| && Fits(f, SKILL_SLOTS[i])
    ensures SkillField(f)
  {
  }

  lemma SkillFieldSlotted(f: Field)
    requires SkillField(f)
    ensures Slotted(f, SKILL_SLOTS)
  {
    var s := SKILL_SLOTS;
    var i := match f.key
             case "name" => 0
             case "description" => 1
             case "version" => 2
             case "content" => 3
             case "source" => 4
             case "enabled" => 5
             case "tags" => 6
             case "metadata" => 7
             case "file_count" => 8
             case "updated_at" => 9
             case "skill_id" => 10
             case "version_id" => 11
             case "package_digest" => 12
             case "object_key" => 13
             case "archive_sha256" => 14
             case "size_bytes" => 15
             case _ => 16;
    assert Fits(f, s[i]);
  }

  lemma SkillFieldIs(f: Field)
    ensures Slotted(f, SKILL_SLOTS) <==> SkillField(f)
  {
    hide SkillField, Fits, SKILL_SLOTS;
    if SkillField(f) {
      SkillFieldSlotted(f);
    }
    if i: nat :| i < |SKILL_SLOTS| && Fits(f, SKILL_SLOTS[i]) {
      SkillFieldFits(f, i);
    }
  }

  function Required(slots: seq<Slot>): set<string> {
    set i | 0 <= i < |slots| && slots[i].required :: slots[i].key
  }

  lemma RequiredAre()
    ensures Required(TOOL_SLOTS) == {"tool_id", "version", "name", "description", "input_schema", "source_available",
                                     "published", "enabled"}
    ensures Required(KNOWLEDGE_SLOTS) == {"tool_id"} && Required(SKILL_SLOTS) == {"name"}
  {
    var t, k, s := TOOL_SLOTS, KNOWLEDGE_SLOTS, SKILL_SLOTS;
    assert t[0].required && t[1].required && t[2].required && t[3].required && t[6].required && t[10].required
           && t[12].required && t[13].required && k[0].required && s[0].required;
  }

  lemma ToolShapeIs(v: Json)
    ensures Conforms(v, TOOL_SLOTS) <==> ToolShaped(v)
    ensures Conforms(v, KNOWLEDGE_SLOTS) <==> KnowledgeShaped(v)
  {
    hide Get, Fits, Slotted, ToolField, Conforms, TOOL_SLOTS, KNOWLEDGE_SLOTS, SKILL_SLOTS;
    ConformsIs(v, TOOL_SLOTS);
    ConformsIs(v, KNOWLEDGE_SLOTS);
    RequiredAre();
    forall f: Field
      ensures (Slotted(f, TOOL_SLOTS) <==> ToolField(f)) && (Slotted(f, KNOWLEDGE_SLOTS) <==> ToolField(f))
    {
      ToolFieldIs(f);
      SlottedAlike(f);
    }
  }

  lemma SkillShapeIs(v: Json)
    ensures Conforms(v, SKILL_SLOTS) <==> SkillShaped(v)
  {
    hide Get, Fits, Slotted, SkillField, Conforms, TOOL_SLOTS, KNOWLEDGE_SLOTS, SKILL_SLOTS;
    ConformsIs(v, SKILL_SLOTS);
    RequiredAre();
    forall f: Field ensures Slotted(f, SKILL_SLOTS) <==> SkillField(f) {
      SkillFieldIs(f);
    }
  }

  // ---------- when a member's dictionary serves ----------

  /** The last of the items with this id is at `i`. */
  predicate LastAt(items: seq<Json>, key: string, id: Json, i: nat) {
    && i < |items| && Get(items[i], key) == Some(id)
    && forall j :: i < j < |items| ==> Get(items[j], key) != Some(id)
  }

  lemma {:induction false} LastWithIs(items: seq<Json>, key: string, id: Json)
    ensures LastWith(items, key, id).Some? <==> exists i: nat :: i < |items| && LastAt(items, key, id, i)
    ensures forall i: nat :: i < |items| && LastAt(items, key, id, i) ==> LastWith(items, key, id) == Some(items[i])
  {
    hide Get;
    if items != [] {
      var n := |items| - 1;
      LastWithIs(items[..n], key, id);
      if Get(items[n], key) == Some(id) {
        assert LastAt(items, key, id, n);
      } else {
        forall i: nat ensures LastAt(items, key, id, i) <==> LastAt(items[..n], key, id, i) {
          assert i < n ==> items[..n][i] == items[i];
        }
      }
    }
  }

  /** What a whitelist asks for: each id is in the list, and the last item that has it is of the right shape. */
  ghost predicate Serves(agent: Json, list: string, key: string, ids: Json, shaped: Json -> bool) {
    var items := GetOr(agent, list, Arr([]));
    && items.Arr? && ids.Arr? && (forall x :: x in items.items ==> Get(x, key).Some?)
    && forall id :: id in ids.items ==>
         exists i: nat :: i < |items.items| && LastAt(items.items, key, id, i) && shaped(items.items[i])
  }

  lemma SelectsExactlyWhen(agent: Json, list: string, key: string, ids: Json, slots: seq<Slot>, shaped: Json -> bool)
    requires forall v :: Conforms(v, slots) <==> shaped(v)
    ensures Select(agent, list, key, ids, slots).Ok? <==> Serves(agent, list, key, ids, shaped)
    ensures Select(agent, list, key, ids, slots).Err? ==>
              Select(agent, list, key, ids, slots).error == DefinitionIncomplete
  {
    hide Get, Conforms, LastAt;
    var items := GetOr(agent, list, Arr([]));
    if items.Arr? && ids.Arr? {
      SelectFails(items.items, key, ids.items, slots);
      forall id | id in ids.items
        ensures (LastWith(items.items, key, id).Some? && Conforms(LastWith(items.items, key, id).value, slots))
                <==> exists i: nat :: i < |items.items| && LastAt(items.items, key, id, i) && shaped(items.items[i])
      {
        LastWithIs(items.items, key, id);
      }
    }
  }

  lemma {:induction false} SelectFails(items: seq<Json>, key: string, ids: seq<Json>, slots: seq<Slot>)
    ensures SelectAll(items, key, ids, slots).Err? ==> SelectAll(items, key, ids, slots).error == DefinitionIncomplete
  {
    hide Conforms, LastWith;
    if ids != [] {
      SelectFails(items, key, ids[1..], slots);
    }
  }

  /**
   When a captured member can be taken into a snapshot: its digest is that of its agent, the agent's texts are there,
   and each whitelisted tool, skill and knowledge source is found in the agent in the right shape.
   */
  lemma SnapshotsExactlyWhen(h: Hash, m: MemberView)
    ensures TeamMemberSnapshot(h, m).Ok? <==>
            && m.agent.Obj? && m.digest.Str? && m.digest.s != "" && h(Bytes(m.agent)) == m.digest.s
            && (forall key :: key in ["id", "name", "description", "runtime_form", "language", "provider_id", "model",
                                      "system_prompt", "context_prompt", "approval_policy"] ==>
                  Get(m.agent, key).Some? && Get(m.agent, key).value.Str?)
            && Serves(m.agent, "tools", "tool_id", m.tools, ToolShaped)
            && Serves(m.agent, "skills", "name", m.skills, SkillShaped)
            && Serves(m.agent, "knowledge_sources", "tool_id", m.knowledge, KnowledgeShaped)
            && m.agentId.Str? && (m.role == Str("supervisor") || m.role == Str("member")) && m.responsibility.Str?
    ensures TeamMemberSnapshot(h, m) == Err(AgentDigestMismatch) <==>
            m.agent.Obj? && m.digest.Str? && m.digest.s != "" && h(Bytes(m.agent)) != m.digest.s
  {
    hide Get, Bytes, Select, Serves, ToolShaped, SkillShaped, KnowledgeShaped, Conforms;
    forall v ensures (Conforms(v, TOOL_SLOTS) <==> ToolShaped(v)) && (Conforms(v, SKILL_SLOTS) <==> SkillShaped(v))
                     && (Conforms(v, KNOWLEDGE_SLOTS) <==> KnowledgeShaped(v)) {
      ToolShapeIs(v);
      SkillShapeIs(v);
    }
    SelectsExactlyWhen(m.agent, "tools", "tool_id", m.tools, TOOL_SLOTS, ToolShaped);
    SelectsExactlyWhen(m.agent, "skills", "name", m.skills, SKILL_SLOTS, SkillShaped);
    SelectsExactlyWhen(m.agent, "knowledge_sources", "tool_id", m.knowledge, KNOWLEDGE_SLOTS, KnowledgeShaped);
  }
}
