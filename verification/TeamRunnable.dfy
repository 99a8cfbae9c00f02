/**
 Exactly when a version published by the service can be run.

 Tools are found by their primary key, so every tool a whitelist names is found again under its id.  A skill is
 found by its directory but captured under the name in its manifest, so a whitelisted skill is found again only
 when some captured skill carries that name.
 */
module TeamRunnable {
  import opened Outcomes
  import opened Json
  import opened Canonical
  import opened PyDict
  import opened TeamDefinition
  import opened TeamRows
  import opened TeamService
  import opened TeamSnapshot
  import opened TeamPublication

  // ---------- shapes of what was captured ----------

  lemma ZipConforms(keys: seq<string>, values: seq<Json>, slots: seq<Slot>)
    requires |keys| == |values| <= |slots| && Distinct(keys)
    requires forall i :: 0 <= i < |values| ==> WellFormed(values[i])
    requires forall i :: 0 <= i < |keys| ==> slots[i].key == keys[i] && HasKind(values[i], slots[i].kind)
    requires forall i :: |keys| <= i < |slots| ==> !slots[i].required
    ensures Conforms(Zip(keys, values), slots)
  {
    var v := Zip(keys, values);
    forall f | f in v.fields ensures exists s :: s in slots && s.key == f.key && HasKind(f.value, s.kind) {
      var i :| 0 <= i < |v.fields| && v.fields[i] == f;
      assert slots[i] in slots;
    }
    ZipGets(keys, values);
    forall s | s in slots && s.required ensures Get(v, s.key).Some? {
      var i :| 0 <= i < |slots| && slots[i] == s;
      assert Get(v, keys[i]) == Some(values[i]);
    }
  }

  lemma ToolConforms(t: Tool)
    ensures Conforms(ToolJson(t), TOOL_SLOTS) && Conforms(ToolJson(t), KNOWLEDGE_SLOTS)
    ensures Get(ToolJson(t), "tool_id") == Some(Str(t.toolId))
  {
    ToolKeysDistinct();
    ToolValuesFit(t, TOOL_SLOTS);
    ToolValuesFit(t, KNOWLEDGE_SLOTS);
    ZipConforms(TOOL_KEYS, ToolValues(t), TOOL_SLOTS);
    ZipConforms(TOOL_KEYS, ToolValues(t), KNOWLEDGE_SLOTS);
    ZipGets(TOOL_KEYS, ToolValues(t));
    assert TOOL_KEYS[0] == "tool_id";
  }

  lemma ToolValuesFit(t: Tool, slots: seq<Slot>)
    requires slots == TOOL_SLOTS || slots == KNOWLEDGE_SLOTS
    ensures |slots| == |TOOL_KEYS|
    ensures forall i :: 0 <= i < |TOOL_KEYS| ==>
              slots[i].key == TOOL_KEYS[i] && HasKind(ToolValues(t)[i], slots[i].kind)
  {
    ToolSlotKeys();
    ToolSlotKinds();
    ToolKindsFit(t);
  }

  const TOOL_KINDS: seq<Kind> :=
    [Text, Text, Text, Text, Text, Text, Object, Object, OptionalText, OptionalText, Flag, Flag, Flag, Flag]

  lemma ToolSlotKeys()
    ensures |TOOL_SLOTS| == |KNOWLEDGE_SLOTS| == |TOOL_KEYS|
    ensures forall i :: 0 <= i < |TOOL_KEYS| ==> TOOL_SLOTS[i].key == KNOWLEDGE_SLOTS[i].key == TOOL_KEYS[i]
  {
  }

  lemma ToolSlotKinds()
    ensures |TOOL_SLOTS| == |KNOWLEDGE_SLOTS| == |TOOL_KINDS|
    ensures forall i :: 0 <= i < |TOOL_KINDS| ==> TOOL_SLOTS[i].kind == KNOWLEDGE_SLOTS[i].kind == TOOL_KINDS[i]
  {
  }

  lemma ToolKindsFit(t: Tool)
    ensures forall i :: 0 <= i < |TOOL_KINDS| ==> HasKind(ToolValues(t)[i], TOOL_KINDS[i])
  {
    assert |TOOL_KINDS| == 14;
  }

  lemma SkillConforms(s: Skill)
    ensures Conforms(SkillJson(s), SKILL_SLOTS)
    ensures Get(SkillJson(s), "name") == Some(Str(s.name))
  {
    SkillKeysDistinct();
    ZipConforms(SKILL_KEYS, SkillValues(s), SKILL_SLOTS);
    ZipGets(SKILL_KEYS, SkillValues(s));
    assert SKILL_KEYS[0] == "name";
  }

  /** What a snapshot reads of a captured agent. */
  lemma AgentGets(a: Agent, provider: string, model: string, skills: seq<Skill>, tools: seq<Tool>,
                  knowledge: seq<Tool>)
    ensures var v := AgentJson(a, provider, model, skills, tools, knowledge);
            && (forall k :: k in PROFILE_KEYS ==> GetOr(v, k, Null).Str?)
            && Get(v, "tools") == Some(ToolsJson(tools))
            && Get(v, "skills") == Some(SkillsJson(skills))
            && Get(v, "knowledge_sources") == Some(ToolsJson(knowledge))
  {
    var profile, binding := ProfileValues(a, provider, model), BindingValues(a, skills, tools, knowledge);
    AgentKeysDistinct();
    ZipGets(AGENT_KEYS, profile + binding);
    ProfileGets(profile, binding);
    assert AGENT_KEYS[10 + 6] == BINDING_KEYS[6] == "skills";
    assert AGENT_KEYS[10 + 9] == BINDING_KEYS[9] == "tools";
    assert AGENT_KEYS[10 + 10] == BINDING_KEYS[10] == "knowledge_sources";
  }

  lemma ProfileGets(profile: seq<Json>, binding: seq<Json>)
    requires |profile| == |PROFILE_KEYS| && |binding| == |BINDING_KEYS| && Distinct(AGENT_KEYS)
    requires forall i :: 0 <= i < |profile| ==> profile[i].Str? && WellFormed(profile[i])
    requires forall i :: 0 <= i < |binding| ==> WellFormed(binding[i])
    ensures forall k :: k in PROFILE_KEYS ==> GetOr(Zip(AGENT_KEYS, profile + binding), k, Null).Str?
  {
    ZipGets(AGENT_KEYS, profile + binding);
    forall k | k in PROFILE_KEYS ensures GetOr(Zip(AGENT_KEYS, profile + binding), k, Null).Str? {
      var i :| 0 <= i < |PROFILE_KEYS| && PROFILE_KEYS[i] == k;
      assert AGENT_KEYS[i] == k && (profile + binding)[i] == profile[i];
    }
  }

  // ---------- finding captured items again ----------

  predicate Holds(items: seq<Json>, key: string, id: Json) {
    exists x :: x in items && Get(x, key) == Some(id)
  }

  lemma {:induction false} LastWithFinds(items: seq<Json>, key: string, id: Json)
    ensures LastWith(items, key, id).Some? <==> Holds(items, key, id)
    ensures LastWith(items, key, id).Some? ==>
              LastWith(items, key, id).value in items && Get(LastWith(items, key, id).value, key) == Some(id)
  {
    if items != [] {
      var n := |items| - 1;
      LastWithFinds(items[..n], key, id);
      assert items == items[..n] + [items[n]];
    }
  }

  /** Every item of the list is keyed and of the right shape. */
  predicate Captures(items: seq<Json>, key: string, slots: seq<Slot>) {
    AllKeyed(items, key) && forall x :: x in items ==> Conforms(x, slots)
  }

  /** Selecting from captured items succeeds exactly when every id is among them. */
  lemma SelectAllCaptured(items: seq<Json>, key: string, ids: seq<string>, slots: seq<Slot>)
    requires Captures(items, key, slots)
    ensures SelectAll(items, key, TextArray(ids).items, slots).Ok? <==>
            forall s :: s in ids ==> Holds(items, key, Str(s))
  {
    var wanted := TextArray(ids).items;
    forall id | id in wanted
      ensures (LastWith(items, key, id).Some? && Conforms(LastWith(items, key, id).value, slots))
          <==> Holds(items, key, id)
    {
      LastWithFinds(items, key, id);
    }
    forall s | s in ids ensures Str(s) in wanted {
      var i :| 0 <= i < |ids| && ids[i] == s;
      assert wanted[i] == Str(s);
    }
  }

  lemma SelectCaptured(agent: Json, list: string, key: string, items: seq<Json>, ids: seq<string>, slots: seq<Slot>)
    requires Get(agent, list) == Some(Arr(items)) && Captures(items, key, slots)
    ensures Select(agent, list, key, TextArray(ids), slots).Ok? <==>
            forall s :: s in ids ==> Holds(items, key, Str(s))
  {
    SelectAllCaptured(items, key, ids, slots);
  }

  lemma HoldsAt(items: seq<Json>, key: string, ids: seq<string>, id: string)
    requires |items| == |ids|
    requires forall i :: 0 <= i < |ids| ==> Get(items[i], key) == Some(Str(ids[i]))
    ensures Holds(items, key, Str(id)) <==> id in ids
  {
    if id in ids {
      var i :| 0 <= i < |ids| && ids[i] == id;
      assert items[i] in items;
    }
    if x :| x in items && Get(x, key) == Some(Str(id)) {
      var i :| 0 <= i < |items| && items[i] == x;
    }
  }

  lemma CapturesAt(items: seq<Json>, key: string, slots: seq<Slot>)
    requires forall i :: 0 <= i < |items| ==> Get(items[i], key).Some? && Conforms(items[i], slots)
    ensures Captures(items, key, slots)
  {
  }

  function ToolIds(ts: seq<Tool>): (ids: seq<string>)
    ensures |ids| == |ts|
  {
    seq(|ts|, i requires 0 <= i < |ts| => ts[i].toolId)
  }

  function SkillNames(ss: seq<Skill>): (names: seq<string>)
    ensures |names| == |ss|
  {
    seq(|ss|, i requires 0 <= i < |ss| => ss[i].name)
  }

  lemma ToolsCaptured(ts: seq<Tool>)
    ensures Captures(ToolsJson(ts).items, "tool_id", TOOL_SLOTS)
    ensures Captures(ToolsJson(ts).items, "tool_id", KNOWLEDGE_SLOTS)
    ensures forall id :: Holds(ToolsJson(ts).items, "tool_id", Str(id)) <==> id in ToolIds(ts)
  {
    var items := ToolsJson(ts).items;
    forall i | 0 <= i < |ts|
      ensures Get(items[i], "tool_id") == Some(Str(ToolIds(ts)[i]))
      ensures Conforms(items[i], TOOL_SLOTS) && Conforms(items[i], KNOWLEDGE_SLOTS)
    {
      ToolConforms(ts[i]);
    }
    CapturesAt(items, "tool_id", TOOL_SLOTS);
    CapturesAt(items, "tool_id", KNOWLEDGE_SLOTS);
    forall id ensures Holds(items, "tool_id", Str(id)) <==> id in ToolIds(ts) {
      HoldsAt(items, "tool_id", ToolIds(ts), id);
    }
  }

  lemma SkillsCaptured(ss: seq<Skill>)
    ensures Captures(SkillsJson(ss).items, "name", SKILL_SLOTS)
    ensures forall name :: Holds(SkillsJson(ss).items, "name", Str(name)) <==> name in SkillNames(ss)
  {
    var items := SkillsJson(ss).items;
    forall i | 0 <= i < |ss|
      ensures Get(items[i], "name") == Some(Str(SkillNames(ss)[i])) && Conforms(items[i], SKILL_SLOTS)
    {
      SkillConforms(ss[i]);
    }
    CapturesAt(items, "name", SKILL_SLOTS);
    forall name ensures Holds(items, "name", Str(name)) <==> name in SkillNames(ss) {
      HoldsAt(items, "name", SkillNames(ss), name);
    }
  }

  // ---------- what one capture holds ----------

  /** Tools are rows under their own primary key. */
  ghost predicate ToolsKeyed(p: Platform) {
    forall id :: id in p.tools ==> p.tools[id].toolId == id
  }

  /** Some skill this agent is bound to carries the name in its manifest. */
  predicate Named(p: Platform, c: Capture, name: string) {
    exists x :: x in c.allow.skills && x in p.skills && p.skills[x].name == name
  }

  /** The list a captured agent holds: every item of the right shape, and the wanted ids among them. */
  ghost predicate HoldsList(c: Capture, list: string, key: string, slots: seq<Slot>) {
    && Get(c.agent, list).Some? && Get(c.agent, list).value.Arr?
    && Captures(Get(c.agent, list).value.items, key, slots)
  }

  function ItemsOf(agent: Json, list: string): seq<Json> {
    var v := GetOr(agent, list, Arr([]));
    if v.Arr? then v.items else []
  }

  /** Everything a snapshot needs of a captured agent; only the skills may be captured under another name. */
  ghost predicate Complete(p: Platform, c: Capture) {
    && (forall k :: k in PROFILE_KEYS ==> GetOr(c.agent, k, Null).Str?)
    && HoldsList(c, "tools", "tool_id", TOOL_SLOTS)
    && HoldsList(c, "skills", "name", SKILL_SLOTS)
    && HoldsList(c, "knowledge_sources", "tool_id", KNOWLEDGE_SLOTS)
    && (forall id :: id in c.allow.tools ==> Holds(ItemsOf(c.agent, "tools"), "tool_id", Str(id)))
    && (forall id :: id in c.allow.knowledge ==> Holds(ItemsOf(c.agent, "knowledge_sources"), "tool_id", Str(id)))
    && (forall name :: Holds(ItemsOf(c.agent, "skills"), "name", Str(name)) <==> Named(p, c, name))
  }

  lemma ResolvedToolIds(p: Platform, ids: seq<string>)
    requires ToolsKeyed(p) && ResolveBindable(p, ids).Ok?
    ensures ToolIds(ResolveBindable(p, ids).value) == ids
  {
  }

  lemma ResolvedSkills(p: Platform, names: seq<string>, name: string)
    requires ResolveSkills(p, names).Ok?
    ensures name in SkillNames(ResolveSkills(p, names).value) <==>
            exists x :: x in names && x in p.skills && p.skills[x].name == name
  {
    var found := SkillNames(ResolveSkills(p, names).value);
    if x :| x in names && x in p.skills && p.skills[x].name == name {
      var i :| 0 <= i < |names| && names[i] == x;
      assert found[i] in found;
    }
    if name in found {
      var i :| 0 <= i < |found| && found[i] == name;
      assert names[i] in names;
    }
  }

  lemma CaptureComplete(p: Platform, scope: Scope, agentId: string)
    requires ToolsKeyed(p) && CaptureAgent(p, scope, agentId).Ok?
    ensures Complete(p, CaptureAgent(p, scope, agentId).value)
  {
    var a := p.agents[agentId];
    var model := ResolveModel(p, a).value;
    var tools := ResolveBindable(p, a.allow.tools).value;
    var skills := ResolveSkills(p, a.allow.skills).value;
    var knowledge := ResolveKnowledge(p, a.allow.knowledge).value;
    AgentGets(a, model.0, model.1, skills, tools, knowledge);
    ResolvedToolIds(p, a.allow.tools);
    ResolvedToolIds(p, a.allow.knowledge);
    CompleteFrom(p, CaptureAgent(p, scope, agentId).value, skills, tools, knowledge);
  }

  lemma CompleteFrom(p: Platform, c: Capture, skills: seq<Skill>, tools: seq<Tool>, knowledge: seq<Tool>)
    requires forall k :: k in PROFILE_KEYS ==> GetOr(c.agent, k, Null).Str?
    requires Get(c.agent, "tools") == Some(ToolsJson(tools)) && ToolIds(tools) == c.allow.tools
    requires Get(c.agent, "skills") == Some(SkillsJson(skills)) && ResolveSkills(p, c.allow.skills) == Ok(skills)
    requires Get(c.agent, "knowledge_sources") == Some(ToolsJson(knowledge)) && ToolIds(knowledge) == c.allow.knowledge
    ensures Complete(p, c)
  {
    ToolsCaptured(tools);
    SkillsCaptured(skills);
    ToolsCaptured(knowledge);
    forall name ensures name in SkillNames(skills) <==> Named(p, c, name) {
      ResolvedSkills(p, c.allow.skills, name);
    }
  }

  lemma EveryoneComplete(p: Platform, scope: Scope, ms: seq<Member>, i: nat)
    requires ToolsKeyed(p) && CaptureEveryone(p, scope, ms).Ok? && i < |ms|
    ensures Complete(p, CaptureEveryone(p, scope, ms).value[i])
  {
    CaptureComplete(p, scope, ms[i].agentId);
  }

  // ---------- one member ----------

  lemma RowShowsDict(m: Member, position: int)
    requires m.captured.Some?
    ensures ViewOfRow(MemberRecord(m, position)) == ViewOfDict(MemberJson(m))
  {
    MemberJsonGets(m);
  }

  lemma RowMirrors(m: Member, position: int)
    requires m.captured.Some?
    ensures Mirrors(MemberRecord(m, position), MemberJson(m), position)
  {
    RowShowsDict(m, position);
    var v := ViewOfDict(MemberJson(m));
    DictEqReflexive(v.agentId);
    DictEqReflexive(v.role);
    DictEqReflexive(v.responsibility);
    DictEqReflexive(v.tools);
    DictEqReflexive(v.skills);
    DictEqReflexive(v.knowledge);
    DictEqReflexive(v.agent);
    DictEqReflexive(v.digest);
  }

  /** Every whitelisted skill of a member carries the name of a skill its agent captured. */
  predicate SkillsAnswer(p: Platform, names: seq<string>, c: Capture) {
    forall name :: name in names ==> Named(p, c, name)
  }

  lemma SelectsTools(p: Platform, c: Capture, ids: seq<string>)
    requires Complete(p, c) && AllIn(ids, c.allow.tools)
    ensures Select(c.agent, "tools", "tool_id", TextArray(ids), TOOL_SLOTS).Ok?
  {
    SelectCaptured(c.agent, "tools", "tool_id", ItemsOf(c.agent, "tools"), ids, TOOL_SLOTS);
  }

  lemma SelectsKnowledge(p: Platform, c: Capture, ids: seq<string>)
    requires Complete(p, c) && AllIn(ids, c.allow.knowledge)
    ensures Select(c.agent, "knowledge_sources", "tool_id", TextArray(ids), KNOWLEDGE_SLOTS).Ok?
  {
    SelectCaptured(c.agent, "knowledge_sources", "tool_id", ItemsOf(c.agent, "knowledge_sources"), ids,
                   KNOWLEDGE_SLOTS);
  }

  lemma SelectsSkills(p: Platform, c: Capture, names: seq<string>)
    requires Complete(p, c)
    ensures Select(c.agent, "skills", "name", TextArray(names), SKILL_SLOTS).Ok? <==> SkillsAnswer(p, names, c)
  {
    SelectCaptured(c.agent, "skills", "name", ItemsOf(c.agent, "skills"), names, SKILL_SLOTS);
  }

  /** A captured member passes the snapshot's checks exactly when its skills are found again. */
  lemma MemberPasses(h: Hash, p: Platform, m: Member, c: Capture, role: string, view: MemberView)
    requires NormalMember(m, role) && role in [SUPERVISOR, MEMBER] && HexDigests(h)
    requires Complete(p, c) && AllIn(m.allow.tools, c.allow.tools) && AllIn(m.allow.knowledge, c.allow.knowledge)
    requires view == ViewOfDict(MemberJson(WithCapture(h, m, c)))
    ensures TeamMemberSnapshot(h, view).Ok? <==> SkillsAnswer(p, m.allow.skills, c)
  {
    MemberJsonGets(WithCapture(h, m, c));
    SelectsTools(p, c, m.allow.tools);
    SelectsSkills(p, c, m.allow.skills);
    SelectsKnowledge(p, c, m.allow.knowledge);
    ViewPasses(h, view, SkillsAnswer(p, m.allow.skills, c));
  }

  lemma ViewPasses(h: Hash, v: MemberView, skills: bool)
    requires v.agent.Obj? && v.digest == Str(Digest(h, v.agent)) && v.digest.s != ""
    requires forall k :: k in PROFILE_KEYS ==> GetOr(v.agent, k, Null).Str?
    requires v.agentId.Str? && v.role in [Str(SUPERVISOR), Str(MEMBER)] && v.responsibility.Str?
    requires Select(v.agent, "tools", "tool_id", v.tools, TOOL_SLOTS).Ok?
    requires Select(v.agent, "skills", "name", v.skills, SKILL_SLOTS).Ok? <==> skills
    requires Select(v.agent, "knowledge_sources", "tool_id", v.knowledge, KNOWLEDGE_SLOTS).Ok?
    ensures TeamMemberSnapshot(h, v).Ok? <==> skills
  {
  }

  lemma MemberVerifies(h: Hash, p: Platform, m: Member, c: Capture, role: string, position: int)
    requires NormalMember(m, role) && role in [SUPERVISOR, MEMBER] && HexDigests(h)
    requires Complete(p, c) && AllIn(m.allow.tools, c.allow.tools) && AllIn(m.allow.knowledge, c.allow.knowledge)
    ensures VerifyMember(h, MemberRecord(WithCapture(h, m, c), position), MemberJson(WithCapture(h, m, c)),
                         position).Ok?
       <==> SkillsAnswer(p, m.allow.skills, c)
  {
    var stored := WithCapture(h, m, c);
    RowShowsDict(stored, position);
    RowMirrors(stored, position);
    MemberPasses(h, p, m, c, role, ViewOfDict(MemberJson(stored)));
  }

  // ---------- what a snapshot contains ----------

  /** What a captured agent holds under each of its keys. */
  lemma CapturedAgentHolds(a: Agent, provider: string, model: string, skills: seq<Skill>, tools: seq<Tool>,
                           knowledge: seq<Tool>)
    ensures var v := AgentJson(a, provider, model, skills, tools, knowledge);
            && Get(v, "id") == Some(Str(a.id)) && Get(v, "name") == Some(Str(a.name))
            && Get(v, "description") == Some(Str(a.description)) && Get(v, "runtime_form") == Some(Str(a.runtimeForm))
            && Get(v, "language") == Some(Str(a.language)) && Get(v, "provider_id") == Some(Str(provider))
            && Get(v, "model") == Some(Str(model)) && Get(v, "system_prompt") == Some(Str(a.systemPrompt))
            && Get(v, "context_prompt") == Some(Str(a.contextPrompt))
            && Get(v, "approval_policy") == Some(Str(a.approvalPolicy))
  {
    hide BindingValues;
    var values := ProfileValues(a, provider, model) + BindingValues(a, skills, tools, knowledge);
    AgentKeysDistinct();
    ZipGets(AGENT_KEYS, values);
    ProfilePlaces();
    assert forall i :: 0 <= i < 10 ==> Get(Zip(AGENT_KEYS, values), AGENT_KEYS[i]) == Some(values[i]);
    assert forall i :: 0 <= i < 10 ==> values[i] == ProfileValues(a, provider, model)[i];
  }

  lemma ProfilePlaces()
    ensures AGENT_KEYS[0] == "id" && AGENT_KEYS[1] == "name" && AGENT_KEYS[2] == "description"
    ensures AGENT_KEYS[3] == "runtime_form" && AGENT_KEYS[4] == "language" && AGENT_KEYS[5] == "provider_id"
    ensures AGENT_KEYS[6] == "model" && AGENT_KEYS[7] == "system_prompt" && AGENT_KEYS[8] == "context_prompt"
    ensures AGENT_KEYS[9] == "approval_policy"
  {
  }

  /** The items of this list that carry an id are the tool the platform had under it. */
  predicate AreTools(p: Platform, items: seq<Json>, ids: seq<string>) {
    forall x, id :: x in items && id in ids && Get(x, "tool_id") == Some(Str(id)) ==>
                      id in p.tools && x == ToolJson(p.tools[id])
  }

  lemma CapturedAreTools(p: Platform, ids: seq<string>)
    requires ToolsKeyed(p) && ResolveBindable(p, ids).Ok?
    ensures AreTools(p, ToolsJson(ResolveBindable(p, ids).value).items, ids)
  {
    hide ToolJson, Get, ResolveBindable;
    var items := ToolsJson(ResolveBindable(p, ids).value).items;
    forall x, id | x in items && id in ids && Get(x, "tool_id") == Some(Str(id))
      ensures id in p.tools && x == ToolJson(p.tools[id])
    {
      CapturedIsTool(p, ids, x, id);
    }
  }

  lemma CapturedIsTool(p: Platform, ids: seq<string>, x: Json, id: string)
    requires ToolsKeyed(p) && ResolveBindable(p, ids).Ok?
    requires x in ToolsJson(ResolveBindable(p, ids).value).items && Get(x, "tool_id") == Some(Str(id))
    ensures id in p.tools && x == ToolJson(p.tools[id])
  {
    hide *;
    var i := ToolAmong(ResolveBindable(p, ids).value, x);
    ToolIsKeyed(p, ids, i);
    ToolCarriesId(p.tools[ids[i]]);
  }

  lemma ToolAmong(ts: seq<Tool>, x: Json) returns (i: nat)
    requires x in ToolsJson(ts).items
    ensures i < |ts| && x == ToolJson(ts[i])
  {
    hide ToolJson;
    i :| i < |ts| && ToolsJson(ts).items[i] == x;
  }

  lemma ToolIsKeyed(p: Platform, ids: seq<string>, i: nat)
    requires ToolsKeyed(p) && ResolveBindable(p, ids).Ok? && i < |ids|
    ensures ids[i] in p.tools && ResolveBindable(p, ids).value[i] == p.tools[ids[i]] && p.tools[ids[i]].toolId == ids[i]
  {
  }

  lemma ToolCarriesId(t: Tool)
    ensures Get(ToolJson(t), "tool_id") == Some(Str(t.toolId))
  {
    ToolConforms(t);
  }

  lemma SelectedAreTools(p: Platform, agent: Json, list: string, items: seq<Json>, allowed: seq<string>,
                         ids: seq<string>, slots: seq<Slot>)
    requires Get(agent, list) == Some(Arr(items)) && AreTools(p, items, allowed) && AllIn(ids, allowed)
    requires Select(agent, list, "tool_id", TextArray(ids), slots).Ok?
    ensures var r := Select(agent, list, "tool_id", TextArray(ids), slots).value;
            |r| == |ids| && forall i :: 0 <= i < |ids| ==> ids[i] in p.tools && r[i] == ToolJson(p.tools[ids[i]])
  {
    hide ToolJson, Conforms;
    var r := Select(agent, list, "tool_id", TextArray(ids), slots).value;
    forall i | 0 <= i < |ids| ensures ids[i] in p.tools && r[i] == ToolJson(p.tools[ids[i]]) {
      LastWithFinds(items, "tool_id", Str(ids[i]));
      assert TextArray(ids).items[i] == Str(ids[i]);
      assert ids[i] in allowed;
    }
  }

  /** Every item of this list is a skill the agent is bound to. */
  predicate AreSkills(p: Platform, items: seq<Json>, bound: seq<string>) {
    forall x :: x in items ==> exists b :: b in bound && b in p.skills && x == SkillJson(p.skills[b])
  }

  /** A skill the agent is bound to, of the name that was asked for. */
  predicate IsBoundSkill(p: Platform, bound: seq<string>, name: string, item: Json) {
    exists b :: b in bound && b in p.skills && p.skills[b].name == name && item == SkillJson(p.skills[b])
  }

  lemma CapturedAreSkills(p: Platform, names: seq<string>)
    requires ResolveSkills(p, names).Ok?
    ensures AreSkills(p, SkillsJson(ResolveSkills(p, names).value).items, names)
  {
    hide SkillJson;
    var ss := ResolveSkills(p, names).value;
    var items := SkillsJson(ss).items;
    forall x | x in items ensures exists b :: b in names && b in p.skills && x == SkillJson(p.skills[b]) {
      var i :| 0 <= i < |items| && items[i] == x;
      assert names[i] in names && ss[i] == p.skills[names[i]];
    }
  }

  lemma SelectedAreSkills(p: Platform, agent: Json, items: seq<Json>, bound: seq<string>, names: seq<string>)
    requires Get(agent, "skills") == Some(Arr(items)) && AreSkills(p, items, bound)
    requires Select(agent, "skills", "name", TextArray(names), SKILL_SLOTS).Ok?
    ensures var r := Select(agent, "skills", "name", TextArray(names), SKILL_SLOTS).value;
            |r| == |names| && forall i :: 0 <= i < |names| ==> IsBoundSkill(p, bound, names[i], r[i])
  {
    hide SkillJson, Conforms;
    var r := Select(agent, "skills", "name", TextArray(names), SKILL_SLOTS).value;
    forall i | 0 <= i < |names| ensures IsBoundSkill(p, bound, names[i], r[i]) {
      LastWithFinds(items, "name", Str(names[i]));
      assert TextArray(names).items[i] == Str(names[i]);
      var b :| b in bound && b in p.skills && r[i] == SkillJson(p.skills[b]);
      SkillConforms(p.skills[b]);
    }
  }

  /** A member snapshot holds what its three selections gave. */
  lemma SnapshotSelects(h: Hash, v: MemberView)
    requires TeamMemberSnapshot(h, v).Ok?
    ensures var r := TeamMemberSnapshot(h, v).value;
            && Select(v.agent, "tools", "tool_id", v.tools, TOOL_SLOTS) == Ok(r.tools)
            && Select(v.agent, "skills", "name", v.skills, SKILL_SLOTS) == Ok(r.skills)
            && Select(v.agent, "knowledge_sources", "tool_id", v.knowledge, KNOWLEDGE_SLOTS) == Ok(r.knowledge)
  {
    hide Select, Digest;
  }

  /** What is known of a captured agent's lists. */
  lemma CapturedLists(p: Platform, scope: Scope, id: string, c: Capture)
    returns (tools: seq<Json>, skills: seq<Json>, knowledge: seq<Json>)
    requires ToolsKeyed(p) && CaptureAgent(p, scope, id) == Ok(c)
    ensures Get(c.agent, "tools") == Some(Arr(tools)) && AreTools(p, tools, c.allow.tools)
    ensures Get(c.agent, "skills") == Some(Arr(skills)) && AreSkills(p, skills, c.allow.skills)
    ensures Get(c.agent, "knowledge_sources") == Some(Arr(knowledge)) && AreTools(p, knowledge, c.allow.knowledge)
  {
    hide ToolJson, SkillJson, AgentIsAvailable, ResolveModel, AgentJson, AreTools, AreSkills, Get;
    var a := p.agents[id];
    var model := ResolveModel(p, a).value;
    var ts := ResolveBindable(p, a.allow.tools).value;
    var ss := ResolveSkills(p, a.allow.skills).value;
    var ks := ResolveKnowledge(p, a.allow.knowledge).value;
    AgentGets(a, model.0, model.1, ss, ts, ks);
    CapturedAreTools(p, a.allow.tools);
    CapturedAreTools(p, a.allow.knowledge);
    CapturedAreSkills(p, a.allow.skills);
    tools, skills, knowledge := ToolsJson(ts).items, SkillsJson(ss).items, ToolsJson(ks).items;
  }

  /**
   The member snapshot of a captured member holds, for every whitelisted id in order, the very tool, skill or knowledge
   source that the platform had at publication.
   */
  lemma SnapshotHoldsCaptured(h: Hash, p: Platform, scope: Scope, m: Member, c: Capture, view: MemberView)
    requires ToolsKeyed(p) && CaptureAgent(p, scope, m.agentId) == Ok(c)
    requires AllIn(m.allow.tools, c.allow.tools) && AllIn(m.allow.knowledge, c.allow.knowledge)
    requires view == ViewOfDict(MemberJson(WithCapture(h, m, c))) && TeamMemberSnapshot(h, view).Ok?
    ensures var r := TeamMemberSnapshot(h, view).value;
            && |r.tools| == |m.allow.tools| && |r.skills| == |m.allow.skills| && |r.knowledge| == |m.allow.knowledge|
            && (forall i :: 0 <= i < |r.tools| ==>
                  m.allow.tools[i] in p.tools && r.tools[i] == ToolJson(p.tools[m.allow.tools[i]]))
            && (forall i :: 0 <= i < |r.knowledge| ==>
                  m.allow.knowledge[i] in p.tools && r.knowledge[i] == ToolJson(p.tools[m.allow.knowledge[i]]))
            && (forall i :: 0 <= i < |r.skills| ==> IsBoundSkill(p, c.allow.skills, m.allow.skills[i], r.skills[i]))
  {
    hide *;
    var tools, skills, knowledge := CapturedLists(p, scope, m.agentId, c);
    CapturedViewLists(h, m, c);
    SnapshotSelects(h, view);
    SelectedAreTools(p, c.agent, "tools", tools, c.allow.tools, m.allow.tools, TOOL_SLOTS);
    SelectedAreTools(p, c.agent, "knowledge_sources", knowledge, c.allow.knowledge, m.allow.knowledge, KNOWLEDGE_SLOTS);
    SelectedAreSkills(p, c.agent, skills, c.allow.skills, m.allow.skills);
  }

  lemma CapturedViewLists(h: Hash, m: Member, c: Capture)
    ensures var v := ViewOfDict(MemberJson(WithCapture(h, m, c)));
            && v.agent == c.agent && v.tools == TextArray(m.allow.tools) && v.skills == TextArray(m.allow.skills)
            && v.knowledge == TextArray(m.allow.knowledge)
  {
    MemberJsonGets(WithCapture(h, m, c));
  }

  // ---------- the whole version ----------

  lemma {:induction false} SortedAlready(rows: seq<MemberRow>)
    requires forall i :: 0 <= i < |rows| - 1 ==> rows[i].position <= rows[i + 1].position
    ensures SortByPosition(rows) == rows
  {
    if |rows| > 0 {
      SortedAlready(rows[1..]);
      assert [rows[0]] + rows[1..] == rows;
    }
  }

  lemma ColumnsMirrored(row: VersionRow, d: Definition)
    requires row.definition == DefinitionJson(d) && row.allow == d.allow && row.settings == d.settings
    ensures ColumnsMirror(row)
  {
    DefinitionJsonGets(d);
    DictEqReflexive(TextArray(d.allow.tools));
    DictEqReflexive(TextArray(d.allow.skills));
    DictEqReflexive(TextArray(d.allow.knowledge));
    DictEqReflexive(OptionText(d.settings.approvalPolicy));
  }

  lemma StoredMembers(d: Definition)
    ensures DefinedMembers(DefinitionJson(d)).Ok?
    ensures var all := DefinedMembers(DefinitionJson(d)).value;
            |all| == |Everyone(d)| && forall i :: 0 <= i < |all| ==> all[i] == MemberJson(Everyone(d)[i])
  {
    DefinitionJsonGets(d);
    var all := [MemberJson(d.supervisor)] + MembersJson(d.members).items;
    forall m | m in all ensures m.Obj? {
      var i :| 0 <= i < |all| && all[i] == m;
    }
  }

  lemma VerifyMembersEach(h: Hash, rows: seq<MemberRow>, defined: seq<Json>)
    requires |rows| == |defined|
    ensures VerifyMembers(h, rows, defined).Ok? <==>
            forall i :: 0 <= i < |rows| ==> VerifyMember(h, rows[i], defined[i], i).Ok?
  {
    var f := (i: nat) => if i < |rows| then VerifyMember(h, rows[i], defined[i], i) else Err(MemberMissing);
    assert VerifyMembers(h, rows, defined) == Each(f, |rows|);
    forall i | 0 <= i < |rows| ensures f(i) == VerifyMember(h, rows[i], defined[i], i) {
    }
  }

  lemma VerifyParts(h: Hash, row: VersionRow, rows: seq<MemberRow>, defined: seq<Json>)
    requires row.digest == Some(Digest(h, row.definition)) && row.digest.value != ""
    requires DefinedMembers(row.definition) == Ok(defined) && SortByPosition(row.members) == rows
    requires |rows| == |defined| && ColumnsMirror(row)
    ensures VerifyTeamVersion(h, row) == VerifyMembers(h, rows, defined)
  {
  }

  /** A row that holds what was stored verifies exactly when every one of its members does. */
  lemma VersionVerifies(h: Hash, row: VersionRow, d: Definition)
    requires row.definition == DefinitionJson(d) && row.allow == d.allow && row.settings == d.settings
    requires row.members == MemberRecords(Everyone(d))
    requires row.digest == Some(Digest(h, row.definition)) && row.digest.value != ""
    ensures VerifyTeamVersion(h, row).Ok? <==>
            forall i :: 0 <= i < |Everyone(d)| ==>
              VerifyMember(h, MemberRecord(Everyone(d)[i], i), MemberJson(Everyone(d)[i]), i).Ok?
  {
    ColumnsMirrored(row, d);
    StoredMembers(d);
    SortedAlready(row.members);
    var defined := DefinedMembers(DefinitionJson(d)).value;
    VerifyParts(h, row, row.members, defined);
    VerifyMembersEach(h, row.members, defined);
  }

  // ---------- team-wide selection ----------

  /** The list under this key of every captured agent is an array of items of the right shape. */
  ghost predicate AllHold(agents: seq<Json>, list: string, key: string, slots: seq<Slot>) {
    forall i :: 0 <= i < |agents| ==>
      Get(agents[i], list) == Some(Arr(ItemsOf(agents[i], list))) && Captures(ItemsOf(agents[i], list), key, slots)
  }

  lemma {:induction false} PooledItems(agents: seq<Json>, list: string, key: string, slots: seq<Slot>)
    requires AllHold(agents, list, key, slots)
    ensures Pooled(agents, list).Ok? && Captures(Pooled(agents, list).value, key, slots)
    ensures forall id :: Holds(Pooled(agents, list).value, key, id) <==>
              exists i :: 0 <= i < |agents| && Holds(ItemsOf(agents[i], list), key, id)
  {
    if agents != [] {
      var n := |agents| - 1;
      PooledItems(agents[..n], list, key, slots);
      var earlier, last := Pooled(agents[..n], list).value, ItemsOf(agents[n], list);
      assert Pooled(agents, list) == Ok(earlier + last);
      forall id
        ensures Holds(earlier + last, key, id) <==>
                exists i :: 0 <= i < |agents| && Holds(ItemsOf(agents[i], list), key, id)
      {
        HoldsEither(earlier, last, key, id);
        assert forall i :: 0 <= i < n ==> agents[..n][i] == agents[i];
      }
    }
  }

  lemma HoldsEither(xs: seq<Json>, ys: seq<Json>, key: string, id: Json)
    ensures Holds(xs + ys, key, id) <==> Holds(xs, key, id) || Holds(ys, key, id)
  {
    assert forall x :: x in xs + ys <==> x in xs || x in ys;
  }

  /** Team-wide selection succeeds exactly when every id is held by some captured agent. */
  lemma PoolSelects(agents: seq<Json>, list: string, key: string, ids: seq<string>, slots: seq<Slot>)
    requires AllHold(agents, list, key, slots)
    ensures PoolSelect(agents, list, key, TextArray(ids), slots).Ok? <==>
            forall s :: s in ids ==> exists i :: 0 <= i < |agents| && Holds(ItemsOf(agents[i], list), key, Str(s))
  {
    PooledItems(agents, list, key, slots);
    var pool := Pooled(agents, list).value;
    SelectAllCaptured(pool, key, ids, slots);
    PoolSelectIds(pool, key, ids);
  }

  lemma PoolSelectIds(pool: seq<Json>, key: string, ids: seq<string>)
    ensures (forall id :: id in TextArray(ids).items ==> LastWith(pool, key, id).Some?)
       <==> (forall s :: s in ids ==> Holds(pool, key, Str(s)))
  {
    var wanted := TextArray(ids).items;
    forall id | id in wanted ensures LastWith(pool, key, id).Some? <==> Holds(pool, key, id) {
      LastWithFinds(pool, key, id);
    }
    forall s | s in ids ensures Str(s) in wanted {
      var i :| 0 <= i < |ids| && ids[i] == s;
      assert wanted[i] == Str(s);
    }
  }

  // ---------- what may be captured at all ----------

  predicate ToolUsable(p: Platform, id: string) {
    id in p.tools && p.tools[id].published && p.tools[id].enabled && p.tools[id].sourceAvailable
  }

  predicate KnowledgeUsable(p: Platform, id: string) {
    ToolUsable(p, id) && p.tools[id].source == "knowledge"
  }

  predicate SkillUsable(p: Platform, name: string) {
    name in p.skills && p.skills[name].enabled
  }

  predicate Usable(p: Platform, a: Whitelists) {
    && (forall id :: id in a.tools ==> ToolUsable(p, id))
    && (forall name :: name in a.skills ==> SkillUsable(p, name))
    && (forall id :: id in a.knowledge ==> KnowledgeUsable(p, id))
  }

  lemma {:induction false} ToolsResolveExactlyWhen(p: Platform, ids: seq<string>)
    ensures ResolveBindable(p, ids).Ok? <==> forall id :: id in ids ==> ToolUsable(p, id)
  {
    if ids != [] {
      ToolsResolveExactlyWhen(p, ids[1..]);
      assert ids[0] in ids && forall id :: id in ids <==> id == ids[0] || id in ids[1..];
      assert ResolveBindable(p, ids).Ok? <==> ToolUsable(p, ids[0]) && ResolveBindable(p, ids[1..]).Ok?;
    }
  }

  lemma {:induction false} SkillsResolveExactlyWhen(p: Platform, names: seq<string>)
    ensures ResolveSkills(p, names).Ok? <==> forall name :: name in names ==> SkillUsable(p, name)
  {
    if names != [] {
      SkillsResolveExactlyWhen(p, names[1..]);
      assert names[0] in names && forall name :: name in names <==> name == names[0] || name in names[1..];
      assert ResolveSkills(p, names).Ok? <==> SkillUsable(p, names[0]) && ResolveSkills(p, names[1..]).Ok?;
    }
  }

  lemma KnowledgeResolvesExactlyWhen(p: Platform, ids: seq<string>)
    ensures ResolveKnowledge(p, ids).Ok? <==> forall id :: id in ids ==> KnowledgeUsable(p, id)
  {
    ToolsResolveExactlyWhen(p, ids);
    if ResolveBindable(p, ids).Ok? {
      var ts := ResolveBindable(p, ids).value;
      if t :| t in ts && t.source != "knowledge" {
        var i :| 0 <= i < |ts| && ts[i] == t;
        assert ids[i] in ids && !KnowledgeUsable(p, ids[i]);
      } else {
        forall id | id in ids ensures KnowledgeUsable(p, id) {
          var i :| 0 <= i < |ids| && ids[i] == id;
          assert ts[i] in ts;
        }
      }
    }
  }

  /** The model an agent runs on: its own if it names both parts, otherwise the platform's active one. */
  predicate ModelUsable(p: Platform, a: Agent) {
    var provider := if a.providerId != "" && a.model != "" then a.providerId else p.activeProvider;
    var model := if a.providerId != "" && a.model != "" then a.model else p.activeModel;
    && provider in p.providers && p.providers[provider].configured && p.providers[provider].enabled
    && FirstEnabled(p.providers[provider].models, model)
  }

  /** The first model of that name is there and enabled. */
  predicate FirstEnabled(models: seq<Model>, id: string) {
    exists i :: 0 <= i < |models| && models[i] == Model(id, true) && forall j :: 0 <= j < i ==> models[j].id != id
  }

  lemma {:induction false} FirstModelIs(models: seq<Model>, id: string)
    ensures FirstModel(models, id).Some? && FirstModel(models, id).value.enabled <==> FirstEnabled(models, id)
  {
    if models != [] && models[0].id != id {
      FirstModelIs(models[1..], id);
      if FirstEnabled(models[1..], id) {
        var i :| 0 <= i < |models[1..]| && models[1..][i] == Model(id, true)
                 && forall j :: 0 <= j < i ==> models[1..][j].id != id;
        assert models[i + 1] == Model(id, true);
        assert forall j :: 0 <= j < i + 1 ==> models[j].id != id by {
          assert forall j :: 1 <= j < i + 1 ==> models[j] == models[1..][j - 1];
        }
      }
      if FirstEnabled(models, id) {
        var i :| 0 <= i < |models| && models[i] == Model(id, true) && forall j :: 0 <= j < i ==> models[j].id != id;
        assert models[1..][i - 1] == Model(id, true);
        assert forall j :: 0 <= j < i - 1 ==> models[1..][j].id != id;
      }
    } else if models != [] {
      assert FirstModel(models, id) == Some(models[0]);
      if models[0].enabled {
        assert models[0] == Model(id, true);
      }
    }
  }

  /** An agent of exactly this unit and project, or a common one that lists the project or lists `*` alone. */
  predicate BelongsIn(a: Agent, scope: Scope) {
    || (a.availabilityScope == "project" && a.unitId == Some(scope.unitId) && a.projectId == Some(scope.projectId)
        && a.allowedProjects == [])
    || (a.availabilityScope == "common" && a.unitId == None && a.projectId == None
        && (a.allowedProjects == ["*"] || ("*" !in a.allowedProjects && scope.projectId in a.allowedProjects)))
  }

  predicate Capturable(p: Platform, scope: Scope, id: string) {
    && id in p.agents && p.agents[id].enabled && BelongsIn(p.agents[id], scope)
    && ModelUsable(p, p.agents[id]) && Usable(p, p.agents[id].allow)
  }

  /** An agent is captured exactly when it and everything it is bound to may be used. */
  lemma CapturesExactlyWhen(p: Platform, scope: Scope, id: string)
    ensures CaptureAgent(p, scope, id).Ok? <==> Capturable(p, scope, id)
    ensures CaptureAgent(p, scope, id).Ok? ==> CaptureAgent(p, scope, id).value.allow == p.agents[id].allow
  {
    hide ResolveBindable, ResolveSkills, ResolveKnowledge, ToolUsable, SkillUsable, KnowledgeUsable, AgentJson,
         FirstModel, FirstEnabled;
    if id in p.agents {
      var a := p.agents[id];
      ToolsResolveExactlyWhen(p, a.allow.tools);
      SkillsResolveExactlyWhen(p, a.allow.skills);
      KnowledgeResolvesExactlyWhen(p, a.allow.knowledge);
      ModelResolvesExactlyWhen(p, a);
    }
  }

  /** An agent of a project is captured in that project only, and there exactly when it is enabled and usable. */
  lemma ProjectAgentStaysHome(p: Platform, scope: Scope, id: string)
    requires id in p.agents && p.agents[id].availabilityScope == "project"
    ensures var a := p.agents[id];
            (CaptureAgent(p, scope, id).Ok? <==>
             && a.unitId == Some(scope.unitId) && a.projectId == Some(scope.projectId) && a.allowedProjects == []
             && a.enabled && ModelUsable(p, a) && Usable(p, a.allow))
    ensures forall other :: CaptureAgent(p, scope, id).Ok? && CaptureAgent(p, other, id).Ok? ==> other == scope
  {
    hide CaptureAgent, ModelUsable, Usable;
    assert |"project"| != |"common"|;
    CapturesExactlyWhen(p, scope, id);
    forall other | CaptureAgent(p, scope, id).Ok? && CaptureAgent(p, other, id).Ok?
      ensures other == scope
    {
      CapturesExactlyWhen(p, other, id);
    }
  }

  /** A common agent is captured in the projects it lists, or everywhere if it lists `*` alone. */
  lemma CommonAgentGoesWhereListed(p: Platform, scope: Scope, id: string)
    requires id in p.agents && p.agents[id].availabilityScope == "common"
    requires CaptureAgent(p, scope, id).Ok?
    ensures var a := p.agents[id];
            && a.unitId.None? && a.projectId.None?
            && (scope.projectId in a.allowedProjects || a.allowedProjects == ["*"])
            && ("*" in a.allowedProjects ==> forall other :: CaptureAgent(p, other, id).Ok?)
  {
    hide CaptureAgent, ModelUsable, Usable;
    assert |"project"| != |"common"|;
    CapturesExactlyWhen(p, scope, id);
    forall other | "*" in p.agents[id].allowedProjects
      ensures CaptureAgent(p, other, id).Ok?
    {
      CapturesExactlyWhen(p, other, id);
    }
  }

  lemma ModelResolvesExactlyWhen(p: Platform, a: Agent)
    ensures ResolveModel(p, a).Ok? <==> ModelUsable(p, a)
  {
    hide FirstModel, FirstEnabled;
    var own := a.providerId != "" && a.model != "";
    var provider, model := if own then a.providerId else p.activeProvider, if own then a.model else p.activeModel;
    if provider in p.providers {
      FirstModelIs(p.providers[provider].models, model);
    }
  }

  lemma {:induction false} CollectsExactlyWhen<T>(f: string -> Normalized<T>, ids: seq<string>)
    ensures Collect(f, ids).Ok? <==> forall i :: 0 <= i < |ids| ==> f(ids[i]).Ok?
  {
    if ids != [] {
      CollectsExactlyWhen(f, ids[..|ids| - 1]);
      assert forall i :: 0 <= i < |ids| - 1 ==> ids[..|ids| - 1][i] == ids[i];
    }
  }

  lemma CapturesEveryoneExactlyWhen(p: Platform, scope: Scope, ms: seq<Member>)
    ensures CaptureEveryone(p, scope, ms).Ok? <==>
            forall i :: 0 <= i < |ms| ==> Capturable(p, scope, ms[i].agentId)
  {
    hide CaptureAgent, Capturable;
    var f := id => CaptureAgent(p, scope, id);
    var ids := AgentIds(ms);
    CollectsExactlyWhen(f, ids);
    assert CaptureEveryone(p, scope, ms) == Collect(f, ids);
    forall i | 0 <= i < |ms| ensures f(ids[i]).Ok? <==> Capturable(p, scope, ms[i].agentId) {
      CapturesExactlyWhen(p, scope, ids[i]);
    }
  }

  /** The whitelists, from the bindings the members' agents have on the platform. */
  predicate WhitelistsAllowed(p: Platform, d: Definition)
    requires forall i :: 0 <= i < |Everyone(d)| ==> Everyone(d)[i].agentId in p.agents
  {
    var ms := Everyone(d);
    && (forall i :: 0 <= i < |ms| ==>
          var own := p.agents[ms[i].agentId].allow;
          && (forall x :: x in ms[i].allow.tools ==> x in d.allow.tools && x in own.tools)
          && (forall x :: x in ms[i].allow.skills ==> x in d.allow.skills && x in own.skills)
          && (forall x :: x in ms[i].allow.knowledge ==> x in d.allow.knowledge && x in own.knowledge))
    && (forall x :: x in d.allow.tools ==> exists i :: 0 <= i < |ms| && x in p.agents[ms[i].agentId].allow.tools)
    && (forall x :: x in d.allow.skills ==> exists i :: 0 <= i < |ms| && x in p.agents[ms[i].agentId].allow.skills)
    && (forall x :: x in d.allow.knowledge ==>
          exists i :: 0 <= i < |ms| && x in p.agents[ms[i].agentId].allow.knowledge)
  }

  lemma InSomeOf(xs: seq<string>, cs: seq<Capture>, list: Whitelists -> seq<string>)
    ensures InSome(xs, Lists(cs, list)) <==>
            forall x :: x in xs ==> exists i :: 0 <= i < |cs| && x in list(cs[i].allow)
  {
    var lists := Lists(cs, list);
    forall x | x in xs
      ensures (exists ys :: ys in lists && x in ys) <==> exists i :: 0 <= i < |cs| && x in list(cs[i].allow)
    {
      if i :| 0 <= i < |cs| && x in list(cs[i].allow) {
        assert lists[i] in lists;
      }
    }
  }

  lemma WhitelistsHoldExactlyWhen(p: Platform, scope: Scope, d: Definition, cs: seq<Capture>)
    requires CaptureEveryone(p, scope, Everyone(d)) == Ok(cs)
    ensures forall i :: 0 <= i < |cs| ==>
              Everyone(d)[i].agentId in p.agents && cs[i].allow == p.agents[Everyone(d)[i].agentId].allow
    ensures WhitelistsHold(d, cs) <==> WhitelistsAllowed(p, d)
  {
    hide CaptureAgent, Capturable, InSome, Lists;
    forall i | 0 <= i < |cs|
      ensures Everyone(d)[i].agentId in p.agents && cs[i].allow == p.agents[Everyone(d)[i].agentId].allow
    {
      CapturesExactlyWhen(p, scope, Everyone(d)[i].agentId);
      CapturableIsThere(p, scope, Everyone(d)[i].agentId);
    }
    InSomeOf(d.allow.tools, cs, (a: Whitelists) => a.tools);
    InSomeOf(d.allow.skills, cs, (a: Whitelists) => a.skills);
    InSomeOf(d.allow.knowledge, cs, (a: Whitelists) => a.knowledge);
  }

  lemma CapturableIsThere(p: Platform, scope: Scope, id: string)
    requires Capturable(p, scope, id)
    ensures id in p.agents
  {
  }

  /** What a draft must be for the service to gather it, said without running the service's steps. */
  predicate Publishable(p: Platform, ceilings: Ceilings, scope: Scope, d: Definition) {
    && |d.members| < ceilings.maxMembers && |d.members| <= ceilings.maxSubagents
    && d.settings.maxSteps <= ceilings.maxSteps
    && d.settings.maxParallel <= ceilings.maxParallel && d.settings.maxParallel <= ceilings.maxSubagents
    && d.settings.maxParallel <= |d.members|
    && (forall i :: 0 <= i < |Everyone(d)| ==>
          Everyone(d)[i].agentId in p.agents && Capturable(p, scope, Everyone(d)[i].agentId))
    && WhitelistsAllowed(p, d)
    && Usable(p, d.allow)
  }

  /**
   The service gathers a draft exactly when it normalises to a definition within the ceilings whose agents may all be
   captured, whose whitelists lie within theirs, and whose own tools, skills and knowledge sources may be used now.
   */
  lemma GathersExactlyWhen(p: Platform, ceilings: Ceilings, scope: Scope, draft: Json)
    ensures Gather(p, ceilings, scope, draft).Ok? <==>
            NormalizeDefinition(draft).Ok? && Publishable(p, ceilings, scope, NormalizeDefinition(draft).value)
  {
    hide NormalizeDefinition, CaptureEveryone, Capturable, WhitelistsHold, WhitelistsAllowed, Usable,
         CheckCurrentCapabilities;
    if NormalizeDefinition(draft).Ok? {
      var d := NormalizeDefinition(draft).value;
      CapturesEveryoneExactlyWhen(p, scope, Everyone(d));
      forall i | 0 <= i < |Everyone(d)| && Capturable(p, scope, Everyone(d)[i].agentId)
        ensures Everyone(d)[i].agentId in p.agents
      {
        CapturableIsThere(p, scope, Everyone(d)[i].agentId);
      }
      if CaptureEveryone(p, scope, Everyone(d)).Ok? {
        WhitelistsHoldExactlyWhen(p, scope, d, CaptureEveryone(p, scope, Everyone(d)).value);
      }
      CapabilitiesExactlyWhen(p, d.allow);
    }
  }

  /** Nothing is published into a project that does not belong there, and nothing above any of the limits. */
  lemma PublishedBelongs(p: Platform, ceilings: Ceilings, scope: Scope, draft: Json, d: Definition, cs: seq<Capture>)
    requires Gather(p, ceilings, scope, draft) == Ok((d, cs))
    ensures 1 + |d.members| <= ceilings.maxMembers && |d.members| <= ceilings.maxSubagents
    ensures d.settings.maxSteps <= ceilings.maxSteps
    ensures d.settings.maxParallel <= ceilings.maxParallel && d.settings.maxParallel <= |d.members|
    ensures forall m :: m in [d.supervisor] + d.members ==>
              && m.agentId in p.agents && p.agents[m.agentId].enabled
              && var a := p.agents[m.agentId];
                 || (a.unitId == Some(scope.unitId) && a.projectId == Some(scope.projectId))
                 || (a.unitId == None && a.projectId == None
                     && (scope.projectId in a.allowedProjects || a.allowedProjects == ["*"]))
  {
    hide Gather, NormalizeDefinition, ModelUsable, Usable, WhitelistsAllowed;
    GathersExactlyWhen(p, ceilings, scope, draft);
    GatheredNormalizes(p, ceilings, scope, draft, d, cs);
    forall m | m in [d.supervisor] + d.members
      ensures Capturable(p, scope, m.agentId)
    {
      var i :| 0 <= i < |Everyone(d)| && Everyone(d)[i] == m;
    }
  }

  lemma GatheredNormalizes(p: Platform, ceilings: Ceilings, scope: Scope, draft: Json, d: Definition, cs: seq<Capture>)
    requires Gather(p, ceilings, scope, draft) == Ok((d, cs))
    ensures NormalizeDefinition(draft) == Ok(d)
  {
    hide NormalizeDefinition;
  }

  lemma CapabilitiesExactlyWhen(p: Platform, a: Whitelists)
    ensures CheckCurrentCapabilities(p, a).Ok? <==> Usable(p, a)
  {
    hide ResolveBindable, ResolveSkills, ResolveKnowledge, ToolUsable, SkillUsable, KnowledgeUsable;
    ToolsResolveExactlyWhen(p, a.tools);
    SkillsResolveExactlyWhen(p, a.skills);
    KnowledgeResolvesExactlyWhen(p, a.knowledge);
  }

  // ---------- exactly when a published version can be run ----------

  /** Every skill the team whitelists carries the name of a skill some agent of the team captured. */
  predicate TeamSkillsAnswer(p: Platform, names: seq<string>, cs: seq<Capture>) {
    forall name :: name in names ==> exists i :: 0 <= i < |cs| && Named(p, cs[i], name)
  }

  predicate EverySkillAnswers(p: Platform, d: Definition, cs: seq<Capture>)
    requires |cs| == |Everyone(d)|
  {
    && (forall i :: 0 <= i < |cs| ==> SkillsAnswer(p, Everyone(d)[i].allow.skills, cs[i]))
    && TeamSkillsAnswer(p, d.allow.skills, cs)
  }

  /** The row that publishing the gathered draft leaves. */
  function PublishedRow(h: Hash, draft: VersionRow, name: string, description: string, d: Definition,
                        cs: seq<Capture>, version: nat, user: string): VersionRow
    requires |cs| == |Everyone(d)|
  {
    PublishedFrom(draft, TrustedRecord(h, name, description, d, cs), version,
                  Digest(h, TrustedJson(h, name, description, d, cs)), user)
  }

  lemma MembersVerify(h: Hash, p: Platform, d: Definition, cs: seq<Capture>, i: nat)
    requires |cs| == |Everyone(d)| && i < |cs| && Normal(d) && HexDigests(h)
    requires WhitelistsHold(d, cs) && Complete(p, cs[i])
    ensures var m := WithCaptures(h, Everyone(d), cs)[i];
            (VerifyMember(h, MemberRecord(m, i), MemberJson(m), i).Ok?
             <==> SkillsAnswer(p, Everyone(d)[i].allow.skills, cs[i]))
  {
    MemberVerifies(h, p, Everyone(d)[i], cs[i], if i == 0 then SUPERVISOR else MEMBER, i);
  }

  lemma TrustedEveryone(h: Hash, name: string, description: string, d: Definition, cs: seq<Capture>)
    requires |cs| == |Everyone(d)|
    ensures Everyone(TrustedRecord(h, name, description, d, cs)) == WithCaptures(h, Everyone(d), cs)
  {
  }

  lemma PublishedVerifies(h: Hash, p: Platform, draft: VersionRow, name: string, description: string, d: Definition,
                          cs: seq<Capture>, version: nat, user: string)
    requires |cs| == |Everyone(d)| && Normal(d) && HexDigests(h) && WhitelistsHold(d, cs)
    requires forall i :: 0 <= i < |cs| ==> Complete(p, cs[i])
    ensures VerifyTeamVersion(h, PublishedRow(h, draft, name, description, d, cs, version, user)).Ok? <==>
            forall i :: 0 <= i < |cs| ==> SkillsAnswer(p, Everyone(d)[i].allow.skills, cs[i])
  {
    var record := TrustedRecord(h, name, description, d, cs);
    var row := PublishedRow(h, draft, name, description, d, cs, version, user);
    TrustedEqualsStored(h, name, description, d, cs);
    TrustedEveryone(h, name, description, d, cs);
    VersionVerifies(h, row, record);
    forall i | 0 <= i < |cs|
      ensures VerifyMember(h, MemberRecord(Everyone(record)[i], i), MemberJson(Everyone(record)[i]), i).Ok?
         <==> SkillsAnswer(p, Everyone(d)[i].allow.skills, cs[i])
    {
      MembersVerify(h, p, d, cs, i);
    }
  }

  function Agents(cs: seq<Capture>): (r: seq<Json>)
    ensures |r| == |cs|
  {
    seq(|cs|, i requires 0 <= i < |cs| => cs[i].agent)
  }

  lemma PoolsSkills(p: Platform, cs: seq<Capture>, names: seq<string>)
    requires forall i :: 0 <= i < |cs| ==> Complete(p, cs[i])
    ensures PoolSelect(Agents(cs), "skills", "name", TextArray(names), SKILL_SLOTS).Ok?
       <==> TeamSkillsAnswer(p, names, cs)
  {
    var agents := Agents(cs);
    assert AllHold(agents, "skills", "name", SKILL_SLOTS);
    PoolSelects(agents, "skills", "name", names, SKILL_SLOTS);
    forall i, name | 0 <= i < |cs|
      ensures Holds(ItemsOf(agents[i], "skills"), "name", Str(name)) <==> Named(p, cs[i], name)
    {
    }
  }

  lemma PoolsTools(p: Platform, cs: seq<Capture>, ids: seq<string>)
    requires forall i :: 0 <= i < |cs| ==> Complete(p, cs[i])
    requires InSome(ids, Lists(cs, (a: Whitelists) => a.tools))
    ensures PoolSelect(Agents(cs), "tools", "tool_id", TextArray(ids), TOOL_SLOTS).Ok?
  {
    var agents, lists := Agents(cs), Lists(cs, (a: Whitelists) => a.tools);
    assert AllHold(agents, "tools", "tool_id", TOOL_SLOTS);
    PoolSelects(agents, "tools", "tool_id", ids, TOOL_SLOTS);
    forall id | id in ids
      ensures exists i :: 0 <= i < |agents| && Holds(ItemsOf(agents[i], "tools"), "tool_id", Str(id))
    {
      var i :| 0 <= i < |lists| && id in lists[i];
      assert Complete(p, cs[i]) && Holds(ItemsOf(agents[i], "tools"), "tool_id", Str(id));
    }
  }

  lemma PoolsKnowledge(p: Platform, cs: seq<Capture>, ids: seq<string>)
    requires forall i :: 0 <= i < |cs| ==> Complete(p, cs[i])
    requires InSome(ids, Lists(cs, (a: Whitelists) => a.knowledge))
    ensures PoolSelect(Agents(cs), "knowledge_sources", "tool_id", TextArray(ids), KNOWLEDGE_SLOTS).Ok?
  {
    var agents, lists := Agents(cs), Lists(cs, (a: Whitelists) => a.knowledge);
    assert AllHold(agents, "knowledge_sources", "tool_id", KNOWLEDGE_SLOTS);
    PoolSelects(agents, "knowledge_sources", "tool_id", ids, KNOWLEDGE_SLOTS);
    forall id | id in ids
      ensures exists i :: 0 <= i < |agents| && Holds(ItemsOf(agents[i], "knowledge_sources"), "tool_id", Str(id))
    {
      var i :| 0 <= i < |lists| && id in lists[i];
      assert Complete(p, cs[i]) && Holds(ItemsOf(agents[i], "knowledge_sources"), "tool_id", Str(id));
    }
  }

  lemma CapabilitiesOfStored(d: Definition, agents: seq<Json>)
    requires |agents| == |Everyone(d)|
    requires forall i :: 0 <= i < |agents| ==> Get(MemberJson(Everyone(d)[i]), "agent_definition") == Some(agents[i])
    ensures TeamCapabilities(DefinitionJson(d)).Ok? <==>
            && PoolSelect(agents, "tools", "tool_id", TextArray(d.allow.tools), TOOL_SLOTS).Ok?
            && PoolSelect(agents, "skills", "name", TextArray(d.allow.skills), SKILL_SLOTS).Ok?
            && PoolSelect(agents, "knowledge_sources", "tool_id", TextArray(d.allow.knowledge), KNOWLEDGE_SLOTS).Ok?
  {
    DefinitionJsonGets(d);
    StoredMembers(d);
    var defined := DefinedMembers(DefinitionJson(d)).value;
    assert agents ==
      seq(|defined|, i requires 0 <= i < |defined| => GetOr(defined[i], "agent_definition", Null));
  }

  lemma PublishedCapable(h: Hash, p: Platform, name: string, description: string, d: Definition, cs: seq<Capture>)
    requires |cs| == |Everyone(d)| && WhitelistsHold(d, cs)
    requires forall i :: 0 <= i < |cs| ==> Complete(p, cs[i])
    ensures TeamCapabilities(DefinitionJson(TrustedRecord(h, name, description, d, cs))).Ok?
       <==> TeamSkillsAnswer(p, d.allow.skills, cs)
  {
    var record := TrustedRecord(h, name, description, d, cs);
    TrustedEveryone(h, name, description, d, cs);
    forall i | 0 <= i < |cs|
      ensures Get(MemberJson(Everyone(record)[i]), "agent_definition") == Some(Agents(cs)[i])
    {
      MemberJsonGets(Everyone(record)[i]);
    }
    CapabilitiesOfStored(record, Agents(cs));
    PoolsTools(p, cs, d.allow.tools);
    PoolsSkills(p, cs, d.allow.skills);
    PoolsKnowledge(p, cs, d.allow.knowledge);
  }

  // ---------- what the team-wide selections hold ----------

  lemma {:induction false} PooledFrom(agents: seq<Json>, list: string, x: Json) returns (i: nat)
    requires Pooled(agents, list).Ok? && x in Pooled(agents, list).value
    ensures i < |agents| && GetOr(agents[i], list, Arr([])).Arr? && x in GetOr(agents[i], list, Arr([])).items
  {
    hide GetOr;
    var n := |agents| - 1;
    if x in Pooled(agents[..n], list).value {
      i := PooledFrom(agents[..n], list, x);
    } else {
      i := n;
    }
  }

  /** What a successful selection gives under one id: an item of some captured agent that carries the id. */
  lemma PoolGives(agents: seq<Json>, list: string, key: string, ids: seq<string>, slots: seq<Slot>, k: nat)
    returns (i: nat)
    requires PoolSelect(agents, list, key, TextArray(ids), slots).Ok? && k < |ids|
    ensures var r := PoolSelect(agents, list, key, TextArray(ids), slots).value;
            && |r| == |ids| && i < |agents| && Get(r[k], key) == Some(Str(ids[k]))
            && GetOr(agents[i], list, Arr([])).Arr? && r[k] in GetOr(agents[i], list, Arr([])).items
  {
    hide Conforms, Get, GetOr, Pooled;
    var pool := Pooled(agents, list).value;
    assert TextArray(ids).items[k] == Str(ids[k]);
    LastWithFinds(pool, key, Str(ids[k]));
    i := PooledFrom(agents, list, PoolSelect(agents, list, key, TextArray(ids), slots).value[k]);
  }

  /** An item that carries an id is the platform's tool of that id. */
  ghost predicate OnlyTools(p: Platform, items: seq<Json>) {
    forall x, id :: x in items && Get(x, "tool_id") == Some(Str(id)) ==> id in p.tools && x == ToolJson(p.tools[id])
  }

  lemma CapturedOnlyTools(p: Platform, ids: seq<string>)
    requires ToolsKeyed(p) && ResolveBindable(p, ids).Ok?
    ensures OnlyTools(p, ToolsJson(ResolveBindable(p, ids).value).items)
  {
    hide ToolJson, Get, ResolveBindable;
    var items := ToolsJson(ResolveBindable(p, ids).value).items;
    forall x, id | x in items && Get(x, "tool_id") == Some(Str(id))
      ensures id in p.tools && x == ToolJson(p.tools[id])
    {
      CapturedIsTool(p, ids, x, id);
    }
  }

  lemma CapturedListsGiven(p: Platform, scope: Scope, id: string, c: Capture)
    requires ToolsKeyed(p) && CaptureAgent(p, scope, id) == Ok(c)
    ensures var tools := GetOr(c.agent, "tools", Arr([])); tools.Arr? && OnlyTools(p, tools.items)
    ensures var skills := GetOr(c.agent, "skills", Arr([])); skills.Arr? && AreSkills(p, skills.items, c.allow.skills)
    ensures var known := GetOr(c.agent, "knowledge_sources", Arr([])); known.Arr? && OnlyTools(p, known.items)
  {
    hide ToolJson, SkillJson, AgentIsAvailable, ResolveModel, AgentJson, AreSkills, OnlyTools, Get;
    var a := p.agents[id];
    var model := ResolveModel(p, a).value;
    var ts, ss := ResolveBindable(p, a.allow.tools).value, ResolveSkills(p, a.allow.skills).value;
    var ks := ResolveKnowledge(p, a.allow.knowledge).value;
    AgentGets(a, model.0, model.1, ss, ts, ks);
    CapturedOnlyTools(p, a.allow.tools);
    CapturedOnlyTools(p, a.allow.knowledge);
    CapturedAreSkills(p, a.allow.skills);
  }

  /** A skill of that name some captured agent is bound to. */
  ghost predicate SomeoneBinds(p: Platform, cs: seq<Capture>, name: string, item: Json) {
    exists i :: 0 <= i < |cs| && IsBoundSkill(p, cs[i].allow.skills, name, item)
  }

  /** The team-wide lists hold, id by id, the platform's tools and sources and a skill some agent was bound to. */
  lemma TeamHoldsCaptured(h: Hash, p: Platform, scope: Scope, name: string, description: string, d: Definition,
                          cs: seq<Capture>)
    requires ToolsKeyed(p) && CaptureEveryone(p, scope, Everyone(d)) == Ok(cs)
    requires TeamCapabilities(DefinitionJson(TrustedRecord(h, name, description, d, cs))).Ok?
    ensures var r := TeamCapabilities(DefinitionJson(TrustedRecord(h, name, description, d, cs))).value;
            && |r.tools| == |d.allow.tools| && |r.skills| == |d.allow.skills| && |r.knowledge| == |d.allow.knowledge|
            && (forall k :: 0 <= k < |r.tools| ==>
                  d.allow.tools[k] in p.tools && r.tools[k] == ToolJson(p.tools[d.allow.tools[k]]))
            && (forall k :: 0 <= k < |r.knowledge| ==>
                  d.allow.knowledge[k] in p.tools && r.knowledge[k] == ToolJson(p.tools[d.allow.knowledge[k]]))
            && (forall k :: 0 <= k < |r.skills| ==>
                  SomeoneBinds(p, cs, d.allow.skills[k], r.skills[k]))
  {
    hide *;
    var r := TeamCapabilities(DefinitionJson(TrustedRecord(h, name, description, d, cs))).value;
    GatheredSize(p, scope, d, cs);
    CapabilitiesSelected(h, name, description, d, cs);
    forall k | 0 <= k < |d.allow.tools|
      ensures d.allow.tools[k] in p.tools && r.tools[k] == ToolJson(p.tools[d.allow.tools[k]])
    {
      PooledTool(p, scope, d, cs, "tools", d.allow.tools, TOOL_SLOTS, k);
    }
    forall k | 0 <= k < |d.allow.knowledge|
      ensures d.allow.knowledge[k] in p.tools && r.knowledge[k] == ToolJson(p.tools[d.allow.knowledge[k]])
    {
      PooledTool(p, scope, d, cs, "knowledge_sources", d.allow.knowledge, KNOWLEDGE_SLOTS, k);
    }
    forall k | 0 <= k < |d.allow.skills|
      ensures SomeoneBinds(p, cs, d.allow.skills[k], r.skills[k])
    {
      var i := PoolGives(Agents(cs), "skills", "name", d.allow.skills, SKILL_SLOTS, k);
      AgentAt(p, scope, d, cs, i);
      CapturedListsGiven(p, scope, Everyone(d)[i].agentId, cs[i]);
      BoundSkillNamed(p, GetOr(cs[i].agent, "skills", Arr([])).items, cs[i].allow.skills, d.allow.skills[k],
                      r.skills[k]);
      SomeoneDoes(p, cs, i, d.allow.skills[k], r.skills[k]);
    }
  }

  lemma PooledTool(p: Platform, scope: Scope, d: Definition, cs: seq<Capture>, list: string, ids: seq<string>,
                   slots: seq<Slot>, k: nat)
    requires ToolsKeyed(p) && CaptureEveryone(p, scope, Everyone(d)) == Ok(cs)
    requires list == "tools" || list == "knowledge_sources"
    requires k < |ids| && PoolSelect(Agents(cs), list, "tool_id", TextArray(ids), slots).Ok?
    ensures var r := PoolSelect(Agents(cs), list, "tool_id", TextArray(ids), slots).value;
            |r| == |ids| && ids[k] in p.tools && r[k] == ToolJson(p.tools[ids[k]])
  {
    hide *;
    var i := PoolGives(Agents(cs), list, "tool_id", ids, slots, k);
    AgentAt(p, scope, d, cs, i);
    CapturedListsGiven(p, scope, Everyone(d)[i].agentId, cs[i]);
    OnlyToolsGive(p, GetOr(cs[i].agent, list, Arr([])).items,
                  PoolSelect(Agents(cs), list, "tool_id", TextArray(ids), slots).value[k], ids[k]);
  }

  lemma OnlyToolsGive(p: Platform, items: seq<Json>, x: Json, id: string)
    requires OnlyTools(p, items) && x in items && Get(x, "tool_id") == Some(Str(id))
    ensures id in p.tools && x == ToolJson(p.tools[id])
  {
  }

  lemma GatheredSize(p: Platform, scope: Scope, d: Definition, cs: seq<Capture>)
    requires CaptureEveryone(p, scope, Everyone(d)) == Ok(cs)
    ensures |cs| == |Everyone(d)|
  {
  }

  lemma SomeoneDoes(p: Platform, cs: seq<Capture>, i: nat, name: string, item: Json)
    requires i < |cs| && IsBoundSkill(p, cs[i].allow.skills, name, item)
    ensures SomeoneBinds(p, cs, name, item)
  {
    hide IsBoundSkill;
  }

  lemma BoundSkillNamed(p: Platform, items: seq<Json>, bound: seq<string>, name: string, x: Json)
    requires AreSkills(p, items, bound) && x in items && Get(x, "name") == Some(Str(name))
    ensures IsBoundSkill(p, bound, name, x)
  {
    hide SkillJson;
    var b :| b in bound && b in p.skills && x == SkillJson(p.skills[b]);
    SkillConforms(p.skills[b]);
  }

  lemma AgentAt(p: Platform, scope: Scope, d: Definition, cs: seq<Capture>, i: nat)
    requires CaptureEveryone(p, scope, Everyone(d)) == Ok(cs) && i < |Agents(cs)|
    ensures |cs| == |Everyone(d)| == |Agents(cs)| && Agents(cs)[i] == cs[i].agent
    ensures CaptureAgent(p, scope, Everyone(d)[i].agentId) == Ok(cs[i])
  {
    hide CaptureAgent;
  }

  /** The three lists are the three selections, in this order. */
  lemma CapabilitiesSelected(h: Hash, name: string, description: string, d: Definition, cs: seq<Capture>)
    requires |cs| == |Everyone(d)|
    requires TeamCapabilities(DefinitionJson(TrustedRecord(h, name, description, d, cs))).Ok?
    ensures var r := TeamCapabilities(DefinitionJson(TrustedRecord(h, name, description, d, cs))).value;
            && |r.tools| == |d.allow.tools| && |r.skills| == |d.allow.skills| && |r.knowledge| == |d.allow.knowledge|
            && PoolSelect(Agents(cs), "tools", "tool_id", TextArray(d.allow.tools), TOOL_SLOTS) == Ok(r.tools)
            && PoolSelect(Agents(cs), "skills", "name", TextArray(d.allow.skills), SKILL_SLOTS) == Ok(r.skills)
            && PoolSelect(Agents(cs), "knowledge_sources", "tool_id", TextArray(d.allow.knowledge), KNOWLEDGE_SLOTS)
               == Ok(r.knowledge)
  {
    hide PoolSelect, DefinitionJson, MemberJson;
    var record := TrustedRecord(h, name, description, d, cs);
    TrustedEveryone(h, name, description, d, cs);
    DefinitionJsonGets(record);
    StoredMembers(record);
    var defined := DefinedMembers(DefinitionJson(record)).value;
    forall i | 0 <= i < |cs|
      ensures Get(MemberJson(Everyone(record)[i]), "agent_definition") == Some(Agents(cs)[i])
    {
      MemberJsonGets(Everyone(record)[i]);
    }
    assert Agents(cs) ==
      seq(|defined|, i requires 0 <= i < |defined| => GetOr(defined[i], "agent_definition", Null));
    SelectionSize(Agents(cs), "tools", "tool_id", d.allow.tools, TOOL_SLOTS);
    SelectionSize(Agents(cs), "skills", "name", d.allow.skills, SKILL_SLOTS);
    SelectionSize(Agents(cs), "knowledge_sources", "tool_id", d.allow.knowledge, KNOWLEDGE_SLOTS);
  }

  lemma SelectionSize(agents: seq<Json>, list: string, key: string, ids: seq<string>, slots: seq<Slot>)
    ensures var r := PoolSelect(agents, list, key, TextArray(ids), slots); r.Ok? ==> |r.value| == |ids|
  {
    hide Conforms, Pooled;
  }

  /**
   A version the service publishes can be run exactly when every whitelisted skill carries the manifest name of a
   skill that was captured for it.  Nothing else can fail: digests, mirrored columns, members, tools and knowledge
   sources always agree.
   */
  lemma PublishedRunsExactlyWhen(h: Hash, p: Platform, ceilings: Ceilings, scope: Scope, draft: VersionRow,
                                 name: string, description: string, d: Definition, cs: seq<Capture>, version: nat,
                                 user: string)
    requires HexDigests(h) && ToolsKeyed(p)
    requires Gather(p, ceilings, scope, draft.definition) == Ok((d, cs))
    ensures Runnable(h, PublishedRow(h, draft, name, description, d, cs, version, user))
            <==> EverySkillAnswers(p, d, cs)
  {
    NormalizeNormal(draft.definition);
    forall i | 0 <= i < |cs| ensures Complete(p, cs[i]) {
      EveryoneComplete(p, scope, Everyone(d), i);
    }
    PublishedVerifies(h, p, draft, name, description, d, cs, version, user);
    PublishedCapable(h, p, name, description, d, cs);
  }

  /** Skills whose manifest name is the directory they are found in. */
  ghost predicate SkillsKeyed(p: Platform) {
    forall x :: x in p.skills ==> p.skills[x].name == x
  }

  lemma EverySkillFound(p: Platform, ceilings: Ceilings, scope: Scope, draft: Json, d: Definition, cs: seq<Capture>)
    requires SkillsKeyed(p) && Gather(p, ceilings, scope, draft) == Ok((d, cs))
    ensures EverySkillAnswers(p, d, cs)
  {
    forall i | 0 <= i < |cs| ensures forall x :: x in cs[i].allow.skills ==> Named(p, cs[i], x) {
      CapturedSkillsResolve(p, scope, Everyone(d)[i].agentId);
    }
    forall x | x in d.allow.skills ensures exists i :: 0 <= i < |cs| && Named(p, cs[i], x) {
      var lists := Lists(cs, (a: Whitelists) => a.skills);
      var i :| 0 <= i < |lists| && x in lists[i];
      assert Named(p, cs[i], x);
    }
  }

  lemma CapturedSkillsResolve(p: Platform, scope: Scope, agentId: string)
    requires SkillsKeyed(p) && CaptureAgent(p, scope, agentId).Ok?
    ensures var c := CaptureAgent(p, scope, agentId).value; forall x :: x in c.allow.skills ==> Named(p, c, x)
  {
    var c := CaptureAgent(p, scope, agentId).value;
    assert ResolveSkills(p, c.allow.skills).Ok?;
    forall x | x in c.allow.skills ensures Named(p, c, x) {
      var i :| 0 <= i < |c.allow.skills| && c.allow.skills[i] == x;
    }
  }

  // ---------- a team that is published and cannot be run ----------

  const LEAD := Member("lead", SUPERVISOR, "plans", Whitelists([], [], []), None)
  const HAND := Member("hand", MEMBER, "works", Whitelists([], ["pdf"], []), None)
  const RENAMED_TEAM :=
    Definition(LEAD, [HAND], Whitelists([], ["pdf"], []), Settings(1, 1, 1, "fail_fast", None), None, None)

  function ProjectAgent(scope: Scope, id: string, skills: seq<string>): Agent {
    Agent(id, id, "", "common", "en-US", "acme", "m", "", "", "never", true, "project", Some(scope.unitId),
          Some(scope.projectId), [], Whitelists([], skills, []))
  }

  /** The skill in directory `pdf` calls itself `pdf-reader` in its manifest. */
  function RenamedPlatform(scope: Scope): Platform {
    Platform(
      map["lead" := ProjectAgent(scope, "lead", []), "hand" := ProjectAgent(scope, "hand", ["pdf"])],
      map[],
      map["pdf" := Skill("pdf-reader", "reads", "", "---\nname: pdf-reader\ndescription: reads\n---\n",
                         "imported", true, [], Obj([]), 1, "2026-01-01T00:00:00Z")],
      map["acme" := Provider(true, true, [Model("m", true)])],
      "acme", "m")
  }

  /** A lower-case letter, and at most 63 more of lower-case letters, digits, `_` and `-`. */
  predicate PatternName(s: string) {
    && 1 <= |s| <= 64 && 'a' <= s[0] <= 'z'
    && forall i :: 0 <= i < |s| ==> 'a' <= s[i] <= 'z' || '0' <= s[i] <= '9' || s[i] == '_' || s[i] == '-'
  }

  /** What reading a skill from its directory demands of the directory and of the manifest, each by itself. */
  predicate AcceptableSkill(directory: string, s: Skill) {
    && PatternName(directory) && PatternName(s.name) && NotBlank(s.description)
    && s.source in ["created", "imported"]
    && 3 <= |s.content| && forall i :: 0 <= i < 3 ==> s.content[i] == '-'
  }

  /** What an agent's configuration must be by itself. */
  predicate AcceptableConfig(id: string, a: Agent) {
    && PatternName(id) && a.id == id && 1 <= |a.name| <= 120 && |a.description| <= 500
    && a.runtimeForm in ["web", "desktop", "common"] && a.language in ["zh-CN", "en-US"]
    && a.approvalPolicy in ["never", "control_commands", "always"]
    && |a.providerId| <= 100 && |a.model| <= 160 && |a.systemPrompt| <= 50_000 && |a.contextPrompt| <= 20_000
    && |a.allow.tools| <= 100 && |a.allow.skills| <= 100 && |a.allow.knowledge| <= 100
  }

  /** An agent belongs to one project, or is common, and then it has no skills, as those belong to projects. */
  predicate AcceptableAgent(id: string, a: Agent) {
    && AcceptableConfig(id, a)
    && if a.availabilityScope == "project" then
         && a.unitId.Some? && a.unitId.value != "" && a.projectId.Some? && a.projectId.value != ""
         && a.allowedProjects == []
       else
         && a.availabilityScope == "common" && a.unitId.None? && a.projectId.None? && a.allowedProjects != []
         && ("*" in a.allowedProjects ==> a.allowedProjects == ["*"]) && a.allow.skills == []
  }

  ghost predicate Acceptable(p: Platform) {
    && (forall x :: x in p.skills ==> AcceptableSkill(x, p.skills[x]))
    && (forall x :: x in p.agents ==> AcceptableAgent(x, p.agents[x]))
  }

  lemma ManifestReads()
    ensures NotBlank("reads")
    ensures var content := "---\nname: pdf-reader\ndescription: reads\n---\n";
            |content| >= 3 && content[0] == '-' && content[1] == '-' && content[2] == '-'
  {
    StartsDark("reads");
  }

  lemma RenamedSkillAcceptable(scope: Scope)
    ensures AcceptableSkill("pdf", RenamedPlatform(scope).skills["pdf"])
  {
    hide PatternName, NotBlank, IsSpace, ProjectAgent;
    var s := RenamedPlatform(scope).skills["pdf"];
    assert s.name == "pdf-reader" && s.description == "reads";
    RenamedNamesFit();
    ManifestReads();
  }

  lemma RenamedNamesFit()
    ensures PatternName("pdf") && PatternName("pdf-reader") && PatternName("lead") && PatternName("hand")
  {
  }

  lemma ProjectAgentAcceptable(scope: Scope, id: string, skills: seq<string>)
    requires PatternName(id) && |skills| <= 100 && scope.unitId != "" && scope.projectId != ""
    ensures AcceptableAgent(id, ProjectAgent(scope, id, skills))
  {
  }

  lemma RenamedPlatformAcceptable(scope: Scope)
    requires scope.unitId != "" && scope.projectId != ""
    ensures Acceptable(RenamedPlatform(scope))
  {
    hide PatternName, AcceptableSkill, AcceptableAgent, ProjectAgent;
    RenamedSkillAcceptable(scope);
    RenamedNamesFit();
    ProjectAgentAcceptable(scope, "lead", []);
    ProjectAgentAcceptable(scope, "hand", ["pdf"]);
  }

  lemma StartsDark(s: string)
    requires s != "" && !IsSpace(s[0])
    ensures NotBlank(s)
  {
    assert s[0] in s;
  }

  lemma PairNormal(d: Definition, lead: Member, hand: Member)
    requires d.supervisor == lead && d.members == [hand] && lead.agentId != hand.agentId
    requires NormalMember(lead, SUPERVISOR) && NormalMember(hand, MEMBER)
    requires NormalWhitelists(d.allow) && NormalSettings(d.settings) && d.name.None?
    ensures Normal(d)
  {
    assert AgentIds(Everyone(d)) == [lead.agentId, hand.agentId];
  }

  lemma RenamedTeamNormal()
    ensures Normal(RENAMED_TEAM)
  {
    StartsDark("lead");
    StartsDark("plans");
    assert NormalMember(LEAD, SUPERVISOR);
    RenamedHandNormal();
    StartsDark("fail_fast");
    PairNormal(RENAMED_TEAM, LEAD, HAND);
  }

  lemma RenamedHandNormal()
    ensures NormalMember(HAND, MEMBER)
  {
    StartsDark("hand");
    StartsDark("works");
  }

  lemma NothingBound(p: Platform)
    ensures ResolveBindable(p, []) == Ok([]) && ResolveKnowledge(p, []) == Ok([]) && ResolveSkills(p, []) == Ok([])
  {
  }

  lemma OneSkillBound(p: Platform, name: string)
    requires name in p.skills && p.skills[name].enabled
    ensures ResolveSkills(p, [name]).Ok?
  {
    assert [name][1..] == [];
    NothingBound(p);
  }

  lemma RenamedModelResolves(scope: Scope, id: string, skills: seq<string>)
    ensures ResolveModel(RenamedPlatform(scope), ProjectAgent(scope, id, skills)) == Ok(("acme", "m"))
  {
    assert FirstModel([Model("m", true)], "m") == Some(Model("m", true));
  }

  lemma RenamedAgentCaptured(scope: Scope, id: string)
    requires id in ["lead", "hand"]
    ensures CaptureAgent(RenamedPlatform(scope), scope, id).Ok?
    ensures id == "hand" ==> CaptureAgent(RenamedPlatform(scope), scope, id).value.allow.skills == ["pdf"]
  {
    hide ResolveModel, ResolveBindable, ResolveKnowledge, ResolveSkills, AgentJson;
    var p := RenamedPlatform(scope);
    var skills := if id == "hand" then ["pdf"] else [];
    assert |"hand"| == |"lead"| && "hand"[0] != "lead"[0];
    assert p.agents[id] == ProjectAgent(scope, id, skills);
    RenamedModelResolves(scope, id, skills);
    NothingBound(p);
    OneSkillBound(p, "pdf");
  }

  lemma CollectTwo<T>(f: string -> Normalized<T>, ids: seq<string>)
    requires |ids| == 2 && f(ids[0]).Ok? && f(ids[1]).Ok?
    ensures Collect(f, ids).Ok?
  {
    assert ids[..1][..0] == [] && ids[..1][0] == ids[0];
    assert Collect(f, ids[..1]).Ok?;
  }

  lemma CaptureBoth(p: Platform, scope: Scope, d: Definition)
    requires |d.members| == 1
    requires CaptureAgent(p, scope, d.supervisor.agentId).Ok? && CaptureAgent(p, scope, d.members[0].agentId).Ok?
    ensures CaptureEveryone(p, scope, Everyone(d)).Ok?
  {
    var f := id => CaptureAgent(p, scope, id);
    CollectTwo(f, AgentIds(Everyone(d)));
    assert CaptureEveryone(p, scope, Everyone(d)) == Collect(f, AgentIds(Everyone(d)));
  }

  lemma RenamedWhitelistsHold(cs: seq<Capture>)
    requires |cs| == 2 && cs[1].allow.skills == ["pdf"]
    ensures WhitelistsHold(RENAMED_TEAM, cs)
  {
    var lists := Lists(cs, (a: Whitelists) => a.skills);
    assert lists[1] == ["pdf"] && lists[1] in lists;
  }

  lemma GatherParts(p: Platform, ceilings: Ceilings, scope: Scope, draft: Json, d: Definition, cs: seq<Capture>)
    requires NormalizeDefinition(draft) == Ok(d) && WithinCeilings(d, ceilings)
    requires CaptureEveryone(p, scope, Everyone(d)) == Ok(cs) && WhitelistsHold(d, cs)
    requires CheckCurrentCapabilities(p, d.allow).Ok?
    ensures Gather(p, ceilings, scope, draft) == Ok((d, cs))
  {
  }

  lemma RenamedCapabilitiesResolve(scope: Scope)
    ensures CheckCurrentCapabilities(RenamedPlatform(scope), RENAMED_TEAM.allow).Ok?
  {
    hide ResolveBindable, ResolveKnowledge, ResolveSkills, ProjectAgent;
    NothingBound(RenamedPlatform(scope));
    OneSkillBound(RenamedPlatform(scope), "pdf");
  }

  lemma RenamedSkillGathers(scope: Scope)
    ensures Gather(RenamedPlatform(scope), Ceilings(8, 4, 8, 4), scope, DefinitionJson(RENAMED_TEAM)).Ok?
    ensures var gathered := Gather(RenamedPlatform(scope), Ceilings(8, 4, 8, 4), scope, DefinitionJson(RENAMED_TEAM));
            var (d, cs) := gathered.value;
            d == RENAMED_TEAM && cs[1].allow.skills == ["pdf"]
  {
    hide RenamedPlatform, CaptureAgent, Gather, NormalizeDefinition, DefinitionJson, CheckCurrentCapabilities,
         WhitelistsHold;
    var p := RenamedPlatform(scope);
    RenamedTeamNormal();
    NormalizeStored(RENAMED_TEAM);
    RenamedAgentCaptured(scope, "lead");
    RenamedAgentCaptured(scope, "hand");
    CaptureBoth(p, scope, RENAMED_TEAM);
    var cs := CaptureEveryone(p, scope, Everyone(RENAMED_TEAM)).value;
    assert Everyone(RENAMED_TEAM)[1].agentId == "hand";
    RenamedWhitelistsHold(cs);
    RenamedCapabilitiesResolve(scope);
    GatherParts(p, Ceilings(8, 4, 8, 4), scope, DefinitionJson(RENAMED_TEAM), RENAMED_TEAM, cs);
  }

  /**
   In any project, with agents of that project and a skill that are each acceptable by themselves: publication goes
   through, and no run of the version it leaves can start.
   */
  lemma RenamedSkillBreaks(h: Hash, scope: Scope, draft: VersionRow, version: nat, user: string)
    requires HexDigests(h) && draft.definition == DefinitionJson(RENAMED_TEAM)
    requires scope.unitId != "" && scope.projectId != ""
    ensures Acceptable(RenamedPlatform(scope))
    ensures Gather(RenamedPlatform(scope), Ceilings(8, 4, 8, 4), scope, draft.definition).Ok?
    ensures var (d, cs) := Gather(RenamedPlatform(scope), Ceilings(8, 4, 8, 4), scope, draft.definition).value;
            !Runnable(h, PublishedRow(h, draft, "team", "", d, cs, version, user))
  {
    hide Gather, Runnable, PublishedRow, Acceptable, ProjectAgent;
    RenamedPlatformAcceptable(scope);
    RenamedSkillGathers(scope);
    var p := RenamedPlatform(scope);
    var (d, cs) := Gather(p, Ceilings(8, 4, 8, 4), scope, draft.definition).value;
    PublishedRunsExactlyWhen(h, p, Ceilings(8, 4, 8, 4), scope, draft, "team", "", d, cs, version, user);
    assert !Named(p, cs[1], "pdf");
    assert "pdf" in Everyone(d)[1].allow.skills;
  }

  // ---------- a changed definition is noticed ----------

  /**
   A verified version whose dictionary is replaced verifies again only if the new dictionary is equal to the old one
   or collides with it under the hash.
   */
  lemma ChangesAreNoticed(h: Hash, row: VersionRow, changed: Json)
    requires WellFormed(row.definition) && WellFormed(changed)
    requires VerifyTeamVersion(h, row).Ok? && VerifyTeamVersion(h, row.(definition := changed)).Ok?
    ensures DictEq(row.definition, changed)
         || (Bytes(row.definition) != Bytes(changed) && h(Bytes(row.definition)) == h(Bytes(changed)))
  {
    BytesDecideEquality(row.definition, changed);
  }
}
