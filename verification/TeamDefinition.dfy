/**
 Normal form of a team definition (backend/app/collaboration/repository.py, `_normalize_definition`).

 A definition arrives as an arbitrary JSON value.  Its normal form is a record; `DefinitionJson` is the
 dictionary the repository stores for it.
 */
module TeamDefinition {
  import opened Outcomes
  import opened Json
  import opened PyDict

  const DIGEST_LENGTH := 64
  const SUPERVISOR := "supervisor"
  const MEMBER := "member"

  datatype TeamError =
    | InvalidDefinition(what: string)
    | DraftConflict
    | TeamNotFound
    | TeamUnavailable
    | DuplicateKey

  /** The three whitelists a team and each of its members carry. */
  datatype Whitelists = Whitelists(tools: seq<string>, skills: seq<string>, knowledge: seq<string>)

  /** The digest of a captured agent definition and the definition itself, which a draft may leave out. */
  datatype Captured = Captured(digest: string, agent: Json)

  datatype Member = Member(
    agentId: string,
    role: string,
    responsibility: string,
    allow: Whitelists,
    captured: Option<Captured>)

  datatype Settings = Settings(
    maxSteps: int,
    maxParallel: int,
    timeout: int,
    failureStrategy: string,
    approvalPolicy: Option<string>)

  datatype Definition = Definition(
    supervisor: Member,
    members: seq<Member>,
    allow: Whitelists,
    settings: Settings,
    name: Option<string>,
    description: Option<string>)

  type Normalized<+T> = Result<T, TeamError>

  function Everyone(d: Definition): seq<Member> {
    [d.supervisor] + d.members
  }

  function AgentIds(ms: seq<Member>): (ids: seq<string>)
    ensures |ids| == |ms|
  {
    seq(|ms|, i requires 0 <= i < |ms| => ms[i].agentId)
  }

  // ---------- checks on single values ----------

  /** Python's `str.isspace` for one character. */
  predicate IsSpace(c: char) {
    var n := c as int;
    || 0x9 <= n <= 0xD || 0x1C <= n <= 0x20 || n == 0x85 || n == 0xA0 || n == 0x1680
    || 0x2000 <= n <= 0x200A || n == 0x2028 || n == 0x2029 || n == 0x202F || n == 0x205F || n == 0x3000
  }

  predicate NotBlank(s: string) {
    exists c :: c in s && !IsSpace(c)
  }

  function NonEmptyString(v: Json, what: string): Normalized<string> {
    if v.Str? && NotBlank(v.s) then Ok(v.s) else Err(InvalidDefinition(what))
  }

  function OptionalString(v: Json, what: string): Normalized<Option<string>> {
    if v.Null? then Ok(None)
    else
      var s :- NonEmptyString(v, what);
      Ok(Some(s))
  }

  predicate IsStringList(v: Json) {
    v.Arr? && forall x :: x in v.items ==> x.Str? && x.s != ""
  }

  function StringList(v: Json, what: string): Normalized<seq<string>> {
    if IsStringList(v) then Ok(seq(|v.items|, i requires 0 <= i < |v.items| => v.items[i].s))
    else Err(InvalidDefinition(what))
  }

  function PositiveInt(v: Json, what: string): Normalized<int> {
    if v.Int? && v.n > 0 then Ok(v.n) else Err(InvalidDefinition(what))
  }

  function ReadWhitelists(v: Json): Normalized<Whitelists> {
    var tools :- StringList(GetOr(v, "tool_ids", Arr([])), "tool_ids");
    var skills :- StringList(GetOr(v, "skill_names", Arr([])), "skill_names");
    var knowledge :- StringList(GetOr(v, "knowledge_source_ids", Arr([])), "knowledge_source_ids");
    Ok(Whitelists(tools, skills, knowledge))
  }

  // ---------- normalising ----------

  function NormalizeMember(v: Json, role: string): (r: Normalized<Member>)
    ensures r.Ok? ==> NormalMember(r.value, role)
  {
    if !v.Obj? || Get(v, "actor_type") == Some(Str("team")) then Err(InvalidDefinition("members"))
    else
      var digest := GetOr(v, "agent_definition_digest", GetOr(v, "agent_version_id", Null));
      if !digest.Null? && !(digest.Str? && |digest.s| == DIGEST_LENGTH) then
        Err(InvalidDefinition("agent_definition_digest"))
      else
        var agent := GetOr(v, "agent_definition", Null);
        if !agent.Null? && !agent.Obj? then Err(InvalidDefinition("agent_definition"))
        else
          var agentId :- NonEmptyString(GetOr(v, "agent_id", Null), "agent_id");
          var responsibility :- NonEmptyString(GetOr(v, "responsibility", Null), "responsibility");
          var allow :- ReadWhitelists(v);
          Ok(Member(agentId, role, responsibility, allow,
                    if digest.Null? then None else Some(Captured(digest.s, agent))))
  }

  function NormalizeMembers(items: seq<Json>): (r: Normalized<seq<Member>>)
    ensures r.Ok? ==> |r.value| == |items|
    ensures r.Ok? ==> forall m :: m in r.value ==> NormalMember(m, MEMBER)
  {
    if items == [] then Ok([])
    else
      var m :- NormalizeMember(items[0], MEMBER);
      var ms :- NormalizeMembers(items[1..]);
      Ok([m] + ms)
  }

  /** `definition[key]` when the key is there; the caller's check decides whether the value will do. */
  function Optionally<T>(v: Json, key: string, check: Json -> Normalized<T>): Normalized<Option<T>> {
    match Get(v, key)
    case None => Ok(None)
    case Some(x) =>
      var t :- check(x);
      Ok(Some(t))
  }

  function AnyText(v: Json): Normalized<string> {
    if v.Str? then Ok(v.s) else Err(InvalidDefinition("description"))
  }

  /** The supervisor, then the members. */
  function ReadRoster(v: Json): (r: Normalized<seq<Member>>)
    ensures r.Ok? ==> NormalRoster(r.value)
  {
    var supervisor :- NormalizeMember(GetOr(v, "supervisor", Null), SUPERVISOR);
    var raw := GetOr(v, "members", Null);
    if !raw.Arr? || raw.items == [] then Err(InvalidDefinition("members"))
    else
      var members :- NormalizeMembers(raw.items);
      if Distinct(AgentIds([supervisor] + members)) then Ok([supervisor] + members)
      else Err(InvalidDefinition("members"))
  }

  function ReadSettings(v: Json): Normalized<Settings> {
    var maxSteps :- PositiveInt(GetOr(v, "max_steps", Null), "max_steps");
    var maxParallel :- PositiveInt(GetOr(v, "max_parallel_members", Null), "max_parallel_members");
    var timeout :- PositiveInt(GetOr(v, "timeout_seconds", Null), "timeout_seconds");
    var failureStrategy :- NonEmptyString(GetOr(v, "failure_strategy", Str("fail_fast")), "failure_strategy");
    var approvalPolicy :- OptionalString(GetOr(v, "approval_policy_id", Null), "approval_policy_id");
    Ok(Settings(maxSteps, maxParallel, timeout, failureStrategy, approvalPolicy))
  }

  function NormalizeDefinition(v: Json): Normalized<Definition> {
    if !v.Obj? then Err(InvalidDefinition("definition"))
    else
      var roster :- ReadRoster(v);
      var allow :- ReadWhitelists(v);
      var settings :- ReadSettings(v);
      var name :- Optionally(v, "name", x => NonEmptyString(x, "name"));
      var description :- Optionally(v, "description", AnyText);
      Ok(Definition(roster[0], roster[1..], allow, settings, name, description))
  }

  // ---------- the stored dictionary ----------

  function MemberJson(m: Member): Json {
    Obj([Field("agent_id", Str(m.agentId)),
         Field("role", Str(m.role)),
         Field("responsibility", Str(m.responsibility)),
         Field("tool_ids", TextArray(m.allow.tools)),
         Field("skill_names", TextArray(m.allow.skills)),
         Field("knowledge_source_ids", TextArray(m.allow.knowledge))] +
        match m.captured
        case None => []
        case Some(c) => [Field("agent_definition_digest", Str(c.digest)), Field("agent_definition", c.agent)])
  }

  function MembersJson(ms: seq<Member>): Json {
    Arr(seq(|ms|, i requires 0 <= i < |ms| => MemberJson(ms[i])))
  }

  function OptionalField(key: string, o: Option<string>): seq<Field> {
    match o
    case None => []
    case Some(s) => [Field(key, Str(s))]
  }

  function DefinitionJson(d: Definition): Json {
    Obj(FixedFields(d) + OptionalField("name", d.name) + OptionalField("description", d.description))
  }

  function FixedFields(d: Definition): seq<Field> {
    RosterFields(MemberJson(d.supervisor), MembersJson(d.members)) + LimitFields(d.allow, d.settings)
  }

  function RosterFields(supervisor: Json, members: Json): seq<Field> {
    [Field("supervisor", supervisor), Field("members", members)]
  }

  function LimitFields(a: Whitelists, s: Settings): seq<Field> {
    [Field("tool_ids", TextArray(a.tools)),
     Field("skill_names", TextArray(a.skills)),
     Field("knowledge_source_ids", TextArray(a.knowledge)),
     Field("max_steps", Int(s.maxSteps)),
     Field("max_parallel_members", Int(s.maxParallel)),
     Field("timeout_seconds", Int(s.timeout)),
     Field("failure_strategy", Str(s.failureStrategy)),
     Field("approval_policy_id", OptionText(s.approvalPolicy))]
  }

  // ---------- normal forms ----------

  predicate NormalTexts(ss: seq<string>) {
    forall s :: s in ss ==> s != ""
  }

  predicate NormalWhitelists(a: Whitelists) {
    NormalTexts(a.tools) && NormalTexts(a.skills) && NormalTexts(a.knowledge)
  }

  predicate NormalMember(m: Member, role: string) {
    && NotBlank(m.agentId)
    && m.role == role
    && NotBlank(m.responsibility)
    && NormalWhitelists(m.allow)
    && (m.captured.Some? ==>
          |m.captured.value.digest| == DIGEST_LENGTH && (m.captured.value.agent.Null? || m.captured.value.agent.Obj?))
  }

  predicate NormalRoster(ms: seq<Member>) {
    && |ms| >= 2
    && NormalMember(ms[0], SUPERVISOR)
    && (forall i :: 1 <= i < |ms| ==> NormalMember(ms[i], MEMBER))
    && Distinct(AgentIds(ms))
  }

  predicate NormalSettings(s: Settings) {
    && s.maxSteps > 0 && s.maxParallel > 0 && s.timeout > 0
    && NotBlank(s.failureStrategy)
    && (s.approvalPolicy.Some? ==> NotBlank(s.approvalPolicy.value))
  }

  /** What the repository promises of every definition it stores. */
  predicate Normal(d: Definition) {
    && NormalRoster(Everyone(d))
    && NormalWhitelists(d.allow)
    && NormalSettings(d.settings)
    && (d.name.Some? ==> NotBlank(d.name.value))
  }

  /** Whatever normalising accepts is normal. */
  lemma NormalizeNormal(v: Json)
    requires NormalizeDefinition(v).Ok?
    ensures Normal(NormalizeDefinition(v).value)
  {
    hide ReadRoster, ReadWhitelists, ReadSettings, NormalRoster, NormalWhitelists, NormalSettings, NotBlank;
    var d := NormalizeDefinition(v).value;
    assert Everyone(d) == ReadRoster(v).value by {
      RosterRead(v);
    }
    WhitelistsRead(v);
    SettingsRead(v);
  }

  lemma RosterRead(v: Json)
    requires ReadRoster(v).Ok?
    ensures |ReadRoster(v).value| >= 2
  {
  }

  lemma WhitelistsRead(v: Json)
    requires ReadWhitelists(v).Ok?
    ensures NormalWhitelists(ReadWhitelists(v).value)
  {
  }

  lemma SettingsRead(v: Json)
    requires ReadSettings(v).Ok?
    ensures NormalSettings(ReadSettings(v).value)
  {
  }

  /** What a definition leaves out: no whitelist allows anything, a failure stops the team, no policy, no labels. */
  lemma NormalizeFillsIn(v: Json)
    requires NormalizeDefinition(v).Ok?
    ensures var d := NormalizeDefinition(v).value;
            && (Get(v, "tool_ids").None? ==> d.allow.tools == [])
            && (Get(v, "skill_names").None? ==> d.allow.skills == [])
            && (Get(v, "knowledge_source_ids").None? ==> d.allow.knowledge == [])
            && (Get(v, "failure_strategy").None? ==> d.settings.failureStrategy == "fail_fast")
            && (Get(v, "approval_policy_id") in [None, Some(Null)] <==> d.settings.approvalPolicy.None?)
            && (Get(v, "name").None? <==> d.name.None?)
            && (Get(v, "description").None? <==> d.description.None?)
  {
    hide ReadRoster, NotBlank;
  }

  /** The 29 characters that Python's `str.isspace` accepts. */
  lemma SpacesAre(c: char)
    ensures IsSpace(c) <==>
            c as int in {0x9, 0xA, 0xB, 0xC, 0xD, 0x1C, 0x1D, 0x1E, 0x1F, 0x20, 0x85, 0xA0, 0x1680, 0x2000, 0x2001,
                         0x2002, 0x2003, 0x2004, 0x2005, 0x2006, 0x2007, 0x2008, 0x2009, 0x200A, 0x2028, 0x2029,
                         0x202F, 0x205F, 0x3000}
  {
  }

  /** A string that is more than white space. */
  ghost predicate SaysSomething(v: Json) {
    v.Str? && exists k :: 0 <= k < |v.s| && !IsSpace(v.s[k])
  }

  /** An array of non-empty strings, or nothing there at all. */
  ghost predicate ListsNames(v: Option<Json>) {
    v.Some? ==>
      v.value.Arr? && forall k :: 0 <= k < |v.value.items| ==> v.value.items[k].Str? && v.value.items[k].s != ""
  }

  ghost predicate AcceptableMember(v: Json) {
    && v.Obj? && Get(v, "actor_type") != Some(Str("team"))
    && (match Get(v, "agent_definition_digest")
        case Some(digest) => digest.Null? || (digest.Str? && |digest.s| == 64)
        case None =>
          match Get(v, "agent_version_id")
          case Some(digest) => digest.Null? || (digest.Str? && |digest.s| == 64)
          case None => true)
    && (Get(v, "agent_definition").Some? ==>
          Get(v, "agent_definition").value.Null? || Get(v, "agent_definition").value.Obj?)
    && Get(v, "agent_id").Some? && SaysSomething(Get(v, "agent_id").value)
    && Get(v, "responsibility").Some? && SaysSomething(Get(v, "responsibility").value)
    && ListsNames(Get(v, "tool_ids")) && ListsNames(Get(v, "skill_names")) && ListsNames(Get(v, "knowledge_source_ids"))
  }

  /** Which members are accepted, in either role; a team is never one. */
  lemma MemberAcceptedExactlyWhen(v: Json, role: string)
    ensures NormalizeMember(v, role).Ok? <==> AcceptableMember(v)
    ensures NormalizeMember(v, role).Ok? ==> Get(v, "agent_id") == Some(Str(NormalizeMember(v, role).value.agentId))
  {
    hide Get, SaysSomething, NotBlank, ListsNames, ReadWhitelists;
    if v.Obj? {
      TextAccepted(GetOr(v, "agent_id", Null), "agent_id");
      TextAccepted(GetOr(v, "responsibility", Null), "responsibility");
      NullSaysNothing();
      ListsAccepted(v);
    }
  }

  lemma {:induction false} MembersAcceptedExactlyWhen(items: seq<Json>)
    ensures NormalizeMembers(items).Ok? <==> forall k :: 0 <= k < |items| ==> AcceptableMember(items[k])
    ensures NormalizeMembers(items).Ok? ==>
              forall k :: 0 <= k < |items| ==>
                Get(items[k], "agent_id") == Some(Str(NormalizeMembers(items).value[k].agentId))
  {
    hide NormalizeMember, AcceptableMember, Get;
    if items != [] {
      MemberAcceptedExactlyWhen(items[0], MEMBER);
      MembersAcceptedExactlyWhen(items[1..]);
      assert forall k :: 1 <= k < |items| ==> items[k] == items[1..][k - 1];
    }
  }

  /** More than one, all acceptable, and no agent twice. */
  ghost predicate AcceptableTeam(all: seq<Json>) {
    && |all| > 1 && (forall k :: 0 <= k < |all| ==> AcceptableMember(all[k]))
    && (forall i, j :: 0 <= i < j < |all| ==> Get(all[i], "agent_id") != Get(all[j], "agent_id"))
  }

  ghost predicate AcceptableRoster(v: Json) {
    && Get(v, "supervisor").Some? && Get(v, "members").Some? && Get(v, "members").value.Arr?
    && AcceptableTeam([Get(v, "supervisor").value] + Get(v, "members").value.items)
  }

  lemma RosterAcceptedExactlyWhen(v: Json)
    ensures ReadRoster(v).Ok? <==> AcceptableRoster(v)
  {
    hide NormalizeMember, NormalizeMembers, AcceptableTeam, Get, Distinct, AgentIds;
    var supervisor, raw := GetOr(v, "supervisor", Null), GetOr(v, "members", Null);
    NotATeam(if raw.Arr? then raw.items else []);
    if raw.Arr? {
      TeamAcceptedExactlyWhen(supervisor, raw.items);
    }
  }

  lemma NotATeam(items: seq<Json>)
    ensures NormalizeMember(Null, SUPERVISOR).Err? && !AcceptableTeam([Null] + items)
  {
    var all := [Null] + items;
    assert all[0] == Null && !AcceptableMember(all[0]);
  }

  lemma TeamAcceptedExactlyWhen(supervisor: Json, items: seq<Json>)
    ensures AcceptableTeam([supervisor] + items) <==>
            && items != [] && NormalizeMember(supervisor, SUPERVISOR).Ok? && NormalizeMembers(items).Ok?
            && Distinct(AgentIds([NormalizeMember(supervisor, SUPERVISOR).value] + NormalizeMembers(items).value))
  {
    hide NormalizeMember, NormalizeMembers, AcceptableMember, Get, Distinct, AgentIds;
    var all := [supervisor] + items;
    assert all[0] == supervisor && forall k :: 0 <= k < |items| ==> all[k + 1] == items[k];
    MemberAcceptedExactlyWhen(supervisor, SUPERVISOR);
    MembersAcceptedExactlyWhen(items);
    if NormalizeMember(supervisor, SUPERVISOR).Ok? && NormalizeMembers(items).Ok? {
      DistinctAgents(all, [NormalizeMember(supervisor, SUPERVISOR).value] + NormalizeMembers(items).value);
    }
    if AcceptableTeam(all) {
      forall k | 0 <= k < |items|
        ensures AcceptableMember(items[k])
      {
        assert all[k + 1] == items[k];
      }
    }
  }

  lemma DistinctAgents(all: seq<Json>, ms: seq<Member>)
    requires |all| == |ms| && forall k :: 0 <= k < |all| ==> Get(all[k], "agent_id") == Some(Str(ms[k].agentId))
    ensures Distinct(AgentIds(ms)) <==>
            forall i, j :: 0 <= i < j < |all| ==> Get(all[i], "agent_id") != Get(all[j], "agent_id")
  {
    hide Get;
    var ids := AgentIds(ms);
    assert forall k :: 0 <= k < |ids| ==> ids[k] == ms[k].agentId;
  }

  ghost predicate Positive(v: Option<Json>) {
    v.Some? && v.value.Int? && v.value.n > 0
  }

  /** Which definitions are accepted, said of their keys. */
  lemma AcceptedExactlyWhen(v: Json)
    ensures NormalizeDefinition(v).Ok? <==>
            && v.Obj? && AcceptableRoster(v)
            && ListsNames(Get(v, "tool_ids")) && ListsNames(Get(v, "skill_names"))
            && ListsNames(Get(v, "knowledge_source_ids"))
            && Positive(Get(v, "max_steps")) && Positive(Get(v, "max_parallel_members"))
            && Positive(Get(v, "timeout_seconds"))
            && (Get(v, "failure_strategy").Some? ==> SaysSomething(Get(v, "failure_strategy").value))
            && (Get(v, "approval_policy_id").Some? ==>
                  Get(v, "approval_policy_id").value.Null? || SaysSomething(Get(v, "approval_policy_id").value))
            && (Get(v, "name").Some? ==> SaysSomething(Get(v, "name").value))
            && (Get(v, "description").Some? ==> Get(v, "description").value.Str?)
  {
    hide Get, SaysSomething, NotBlank, ListsNames, ReadWhitelists, ReadRoster, AcceptableRoster, ReadSettings;
    if v.Obj? {
      RosterAcceptedExactlyWhen(v);
      ListsAccepted(v);
      SettingsAccepted(v);
      if Get(v, "name").Some? {
        TextAccepted(Get(v, "name").value, "name");
      }
    }
  }

  lemma SettingsAccepted(v: Json)
    ensures ReadSettings(v).Ok? <==>
            && Positive(Get(v, "max_steps")) && Positive(Get(v, "max_parallel_members"))
            && Positive(Get(v, "timeout_seconds"))
            && (Get(v, "failure_strategy").Some? ==> SaysSomething(Get(v, "failure_strategy").value))
            && (Get(v, "approval_policy_id").Some? ==>
                  Get(v, "approval_policy_id").value.Null? || SaysSomething(Get(v, "approval_policy_id").value))
  {
    hide Get, SaysSomething, NonEmptyString;
    FailFastSays();
    TextAccepted(GetOr(v, "failure_strategy", Str("fail_fast")), "failure_strategy");
    TextAccepted(GetOr(v, "approval_policy_id", Null), "approval_policy_id");
    NullSaysNothing();
  }

  lemma FailFastSays()
    ensures SaysSomething(Str("fail_fast"))
  {
    assert Str("fail_fast").s[0] == 'f' && !IsSpace('f');
  }

  lemma NullSaysNothing()
    ensures !SaysSomething(Null)
  {
  }

  lemma TextAccepted(v: Json, what: string)
    ensures NonEmptyString(v, what).Ok? <==> SaysSomething(v)
  {
    if v.Str? {
      if NotBlank(v.s) {
        var c :| c in v.s && !IsSpace(c);
        var k :| 0 <= k < |v.s| && v.s[k] == c;
      }
      if SaysSomething(v) {
        var k :| 0 <= k < |v.s| && !IsSpace(v.s[k]);
        assert v.s[k] in v.s;
      }
    }
  }

  lemma ListAccepted(v: Option<Json>, what: string)
    ensures StringList(if v.Some? then v.value else Arr([]), what).Ok? <==> ListsNames(v)
  {
    if v.Some? && v.value.Arr? {
      forall x | x in v.value.items
        ensures exists k :: 0 <= k < |v.value.items| && v.value.items[k] == x
      {
      }
    }
  }

  lemma ListsAccepted(v: Json)
    ensures ReadWhitelists(v).Ok? <==>
            && ListsNames(Get(v, "tool_ids")) && ListsNames(Get(v, "skill_names"))
            && ListsNames(Get(v, "knowledge_source_ids"))
  {
    hide Get, ListsNames, StringList;
    ListAccepted(Get(v, "tool_ids"), "tool_ids");
    ListAccepted(Get(v, "skill_names"), "skill_names");
    ListAccepted(Get(v, "knowledge_source_ids"), "knowledge_source_ids");
  }

  const MEMBER_READS: seq<string> :=
    ["actor_type", "agent_definition", "agent_id", "responsibility", "tool_ids", "skill_names", "knowledge_source_ids"]

  /** Nothing else a member's dictionary holds has any influence, not even the role it claims. */
  lemma NormalizeMemberReads(v: Json, w: Json, role: string)
    requires v.Obj? && w.Obj? && forall key :: key in MEMBER_READS ==> Get(v, key) == Get(w, key)
    requires GetOr(v, "agent_definition_digest", GetOr(v, "agent_version_id", Null))
          == GetOr(w, "agent_definition_digest", GetOr(w, "agent_version_id", Null))
    ensures NormalizeMember(v, role) == NormalizeMember(w, role)
  {
    hide Get, NonEmptyString, ReadWhitelists, StringList;
    SameReads(v, w);
  }

  lemma SameReads(v: Json, w: Json)
    requires forall key :: key in MEMBER_READS ==> Get(v, key) == Get(w, key)
    ensures Get(v, "actor_type") == Get(w, "actor_type") && Get(v, "agent_definition") == Get(w, "agent_definition")
    ensures Get(v, "agent_id") == Get(w, "agent_id") && Get(v, "responsibility") == Get(w, "responsibility")
    ensures ReadWhitelists(v) == ReadWhitelists(w)
  {
    hide Get, StringList;
    assert MEMBER_READS[0] == "actor_type" && MEMBER_READS[1] == "agent_definition" && MEMBER_READS[2] == "agent_id";
    assert MEMBER_READS[3] == "responsibility" && MEMBER_READS[4] == "tool_ids" && MEMBER_READS[5] == "skill_names";
    assert MEMBER_READS[6] == "knowledge_source_ids";
  }

  function WithKeyRenamed(fs: seq<Field>, older: string, newer: string): seq<Field> {
    seq(|fs|, i requires 0 <= i < |fs| => if fs[i].key == older then Field(newer, fs[i].value) else fs[i])
  }

  lemma {:induction false} RenamedLookup(fs: seq<Field>, older: string, newer: string, key: string)
    requires older != newer && Lookup(fs, newer).None?
    ensures Lookup(WithKeyRenamed(fs, older, newer), key) ==
            if key == newer then Lookup(fs, older) else if key == older then None else Lookup(fs, key)
  {
    if fs != [] {
      assert WithKeyRenamed(fs, older, newer)[1..] == WithKeyRenamed(fs[1..], older, newer);
      RenamedLookup(fs[1..], older, newer, key);
    }
  }

  /** A member that carries its digest under the older key is the same member once that key is renamed to the newer. */
  lemma NormalizeOlderKey(v: Json, role: string)
    requires v.Obj? && Get(v, "agent_definition_digest").None?
    ensures NormalizeMember(Obj(WithKeyRenamed(v.fields, "agent_version_id", "agent_definition_digest")), role)
         == NormalizeMember(v, role)
  {
    hide NormalizeMember, WithKeyRenamed;
    var newer, older := "agent_definition_digest", "agent_version_id";
    var w := Obj(WithKeyRenamed(v.fields, older, newer));
    assert |newer| != |older|;
    forall key | key in MEMBER_READS
      ensures Get(v, key) == Get(w, key)
    {
      MemberReadsNoDigest();
      RenamedLookup(v.fields, older, newer, key);
    }
    RenamedLookup(v.fields, older, newer, newer);
    RenamedLookup(v.fields, older, newer, older);
    NormalizeMemberReads(v, w, role);
  }

  lemma MemberReadsNoDigest()
    ensures "agent_definition_digest" !in MEMBER_READS && "agent_version_id" !in MEMBER_READS
  {
    assert |"agent_definition_digest"| == 23 && |"agent_version_id"| == 16;
    assert forall i :: 0 <= i < |MEMBER_READS| ==>
        |MEMBER_READS[i]| != 23 && (|MEMBER_READS[i]| == 16 ==> MEMBER_READS[i][6] == 'd');
    assert "agent_version_id"[6] == 'v';
  }

  lemma TextArrayRead(ss: seq<string>, what: string)
    requires NormalTexts(ss)
    ensures StringList(TextArray(ss), what) == Ok(ss)
  {
    var v := TextArray(ss);
    forall x | x in v.items ensures x.Str? && x.s != "" {
      var i :| 0 <= i < |v.items| && v.items[i] == x;
      assert ss[i] in ss;
    }
    assert IsStringList(v);
    assert StringList(v, what).value == ss;
  }

  lemma MemberKeys(m: Member)
    ensures Keys(MemberJson(m).fields) ==
            ["agent_id", "role", "responsibility", "tool_ids", "skill_names", "knowledge_source_ids"]
            + if m.captured.Some? then ["agent_definition_digest", "agent_definition"] else []
    ensures Distinct(Keys(MemberJson(m).fields))
  {
    hide Lookup, TextArray;
  }

  /** What each key of a stored member holds. */
  lemma MemberJsonGets(m: Member)
    ensures var v := MemberJson(m);
            && Distinct(Keys(v.fields))
            && Get(v, "agent_id") == Some(Str(m.agentId))
            && Get(v, "role") == Some(Str(m.role))
            && Get(v, "responsibility") == Some(Str(m.responsibility))
            && Get(v, "tool_ids") == Some(TextArray(m.allow.tools))
            && Get(v, "skill_names") == Some(TextArray(m.allow.skills))
            && Get(v, "knowledge_source_ids") == Some(TextArray(m.allow.knowledge))
            && Get(v, "actor_type") == None
            && (match m.captured
                case Some(c) =>
                  && Get(v, "agent_definition_digest") == Some(Str(c.digest))
                  && Get(v, "agent_definition") == Some(c.agent)
                case None =>
                  && Get(v, "agent_definition_digest") == None
                  && Get(v, "agent_definition") == None
                  && Get(v, "agent_version_id") == None)
  {
    hide Lookup, TextArray, Distinct, Keys;
    var fs := MemberJson(m).fields;
    MemberKeys(m);
    LookupAll(fs);
    assert fs[0].key == "agent_id" && fs[1].key == "role" && fs[2].key == "responsibility";
    assert fs[3].key == "tool_ids" && fs[4].key == "skill_names" && fs[5].key == "knowledge_source_ids";
    LookupMissing(fs, "actor_type");
    if m.captured.Some? {
      assert fs[6].key == "agent_definition_digest" && fs[7].key == "agent_definition";
    } else {
      LookupMissing(fs, "agent_definition_digest");
      LookupMissing(fs, "agent_definition");
      LookupMissing(fs, "agent_version_id");
    }
  }

  lemma NormalizeStoredMember(m: Member, role: string)
    requires NormalMember(m, role)
    ensures NormalizeMember(MemberJson(m), role) == Ok(m)
  {
    MemberJsonGets(m);
    ReadStoredWhitelists(MemberJson(m), m.allow);
  }

  lemma {:induction false} NormalizeStoredMembers(ms: seq<Member>)
    requires forall m :: m in ms ==> NormalMember(m, MEMBER)
    ensures NormalizeMembers(MembersJson(ms).items) == Ok(ms)
  {
    hide NormalizeMember, MemberJson, NormalMember;
    if ms != [] {
      NormalizeStoredMember(ms[0], MEMBER);
      NormalizeStoredMembers(ms[1..]);
      assert MembersJson(ms).items[1..] == MembersJson(ms[1..]).items;
      assert [ms[0]] + ms[1..] == ms;
    }
  }

  /** What each key of a stored definition holds. */
  lemma DefinitionJsonGets(d: Definition)
    ensures var v := DefinitionJson(d);
            && Get(v, "supervisor") == Some(MemberJson(d.supervisor))
            && Get(v, "members") == Some(MembersJson(d.members))
            && Get(v, "tool_ids") == Some(TextArray(d.allow.tools))
            && Get(v, "skill_names") == Some(TextArray(d.allow.skills))
            && Get(v, "knowledge_source_ids") == Some(TextArray(d.allow.knowledge))
            && Get(v, "max_steps") == Some(Int(d.settings.maxSteps))
            && Get(v, "max_parallel_members") == Some(Int(d.settings.maxParallel))
            && Get(v, "timeout_seconds") == Some(Int(d.settings.timeout))
            && Get(v, "failure_strategy") == Some(Str(d.settings.failureStrategy))
            && Get(v, "approval_policy_id") == Some(OptionText(d.settings.approvalPolicy))
            && Get(v, "name") == OptionStr(d.name)
            && Get(v, "description") == OptionStr(d.description)
  {
    PartsGets(MemberJson(d.supervisor), MembersJson(d.members), d.allow, d.settings);
    StoredFixedGet(d, "supervisor");
    StoredFixedGet(d, "members");
    StoredFixedGet(d, "tool_ids");
    StoredFixedGet(d, "skill_names");
    StoredFixedGet(d, "knowledge_source_ids");
    StoredFixedGet(d, "max_steps");
    StoredFixedGet(d, "max_parallel_members");
    StoredFixedGet(d, "timeout_seconds");
    StoredFixedGet(d, "failure_strategy");
    StoredFixedGet(d, "approval_policy_id");
    StoredLabelGets(d);
  }

  lemma StoredFixedGet(d: Definition, key: string)
    ensures Get(DefinitionJson(d), key)
         == if Lookup(FixedFields(d), key).Some? then Lookup(FixedFields(d), key)
            else Lookup(OptionalField("name", d.name) + OptionalField("description", d.description), key)
  {
    var fs, labels := FixedFields(d), OptionalField("name", d.name) + OptionalField("description", d.description);
    assert fs + OptionalField("name", d.name) + OptionalField("description", d.description) == fs + labels;
    LookupAppend(fs, labels, key);
  }

  lemma StoredLabelGets(d: Definition)
    ensures Get(DefinitionJson(d), "name") == OptionStr(d.name)
    ensures Get(DefinitionJson(d), "description") == OptionStr(d.description)
  {
    var name, description := OptionalField("name", d.name), OptionalField("description", d.description);
    FixedFieldsKeys(d);
    LookupMissing(FixedFields(d), "name");
    LookupMissing(FixedFields(d), "description");
    StoredFixedGet(d, "name");
    StoredFixedGet(d, "description");
    LookupAppend(name, description, "name");
    LookupAppend(name, description, "description");
  }

  function OptionStr(o: Option<string>): Option<Json> {
    match o
    case Some(s) => Some(Str(s))
    case None => None
  }

  const FIXED_KEYS: seq<string> :=
    ["supervisor", "members", "tool_ids", "skill_names", "knowledge_source_ids", "max_steps",
     "max_parallel_members", "timeout_seconds", "failure_strategy", "approval_policy_id"]

  lemma PartsKeys(x: Json, xs: Json, a: Whitelists, s: Settings)
    ensures Keys(RosterFields(x, xs) + LimitFields(a, s)) == FIXED_KEYS && Distinct(FIXED_KEYS)
    ensures forall f :: f in RosterFields(x, xs) + LimitFields(a, s) ==> f.key !in ["name", "description"]
  {
    hide TextArray, OptionText;
    var fs := RosterFields(x, xs) + LimitFields(a, s);
    assert |fs| == 10;
    assert forall i :: 0 <= i < 10 ==> fs[i].key == FIXED_KEYS[i];
  }

  lemma FixedFieldsKeys(d: Definition)
    ensures Keys(FixedFields(d)) == FIXED_KEYS
    ensures forall f :: f in FixedFields(d) ==> f.key !in ["name", "description"]
  {
    PartsKeys(MemberJson(d.supervisor), MembersJson(d.members), d.allow, d.settings);
  }

  /** What each of the fixed keys holds, whoever wrote the roster. */
  lemma PartsGets(x: Json, xs: Json, a: Whitelists, s: Settings)
    ensures var fs := RosterFields(x, xs) + LimitFields(a, s);
            && Lookup(fs, "supervisor") == Some(x)
            && Lookup(fs, "members") == Some(xs)
            && Lookup(fs, "tool_ids") == Some(TextArray(a.tools))
            && Lookup(fs, "skill_names") == Some(TextArray(a.skills))
            && Lookup(fs, "knowledge_source_ids") == Some(TextArray(a.knowledge))
            && Lookup(fs, "max_steps") == Some(Int(s.maxSteps))
            && Lookup(fs, "max_parallel_members") == Some(Int(s.maxParallel))
            && Lookup(fs, "timeout_seconds") == Some(Int(s.timeout))
            && Lookup(fs, "failure_strategy") == Some(Str(s.failureStrategy))
            && Lookup(fs, "approval_policy_id") == Some(OptionText(s.approvalPolicy))
  {
    hide Lookup, TextArray, OptionText, Distinct, Keys;
    var fs := RosterFields(x, xs) + LimitFields(a, s);
    PartsKeys(x, xs, a, s);
    LookupAll(fs);
    assert fs[0].key == "supervisor" && fs[1].key == "members" && fs[2].key == "tool_ids";
    assert fs[3].key == "skill_names" && fs[4].key == "knowledge_source_ids" && fs[5].key == "max_steps";
    assert fs[6].key == "max_parallel_members" && fs[7].key == "timeout_seconds";
    assert fs[8].key == "failure_strategy" && fs[9].key == "approval_policy_id";
  }

  lemma ReadStoredRoster(v: Json, d: Definition)
    requires NormalRoster(Everyone(d))
    requires Get(v, "supervisor") == Some(MemberJson(d.supervisor))
    requires Get(v, "members") == Some(MembersJson(d.members))
    ensures ReadRoster(v) == Ok(Everyone(d))
  {
    NormalizeStoredMember(d.supervisor, SUPERVISOR);
    forall m | m in d.members ensures NormalMember(m, MEMBER) {
      var i :| 0 <= i < |d.members| && d.members[i] == m;
      assert Everyone(d)[i + 1] == m;
    }
    NormalizeStoredMembers(d.members);
  }

  lemma ReadStoredWhitelists(v: Json, a: Whitelists)
    requires NormalWhitelists(a)
    requires Get(v, "tool_ids") == Some(TextArray(a.tools))
    requires Get(v, "skill_names") == Some(TextArray(a.skills))
    requires Get(v, "knowledge_source_ids") == Some(TextArray(a.knowledge))
    ensures ReadWhitelists(v) == Ok(a)
  {
    TextArrayRead(a.tools, "tool_ids");
    TextArrayRead(a.skills, "skill_names");
    TextArrayRead(a.knowledge, "knowledge_source_ids");
  }

  /** Normalising is a fixpoint on normal definitions: what was stored comes back unchanged. */
  lemma NormalizeStored(d: Definition)
    requires Normal(d)
    ensures NormalizeDefinition(DefinitionJson(d)) == Ok(d)
  {
    hide ReadRoster, ReadWhitelists, ReadSettings, DefinitionJson, MemberJson, MembersJson, TextArray, NormalRoster,
         NormalWhitelists, NormalSettings, NotBlank;
    var v := DefinitionJson(d);
    DefinitionJsonGets(d);
    ReadStoredRoster(v, d);
    ReadStoredWhitelists(v, d.allow);
    ReadStoredSettings(v, d.settings);
    StoredIsDict(d);
    assert Everyone(d)[1..] == d.members;
  }

  lemma StoredIsDict(d: Definition)
    ensures DefinitionJson(d).Obj?
  {
  }

  lemma ReadStoredSettings(v: Json, s: Settings)
    requires NormalSettings(s)
    requires Get(v, "max_steps") == Some(Int(s.maxSteps))
    requires Get(v, "max_parallel_members") == Some(Int(s.maxParallel))
    requires Get(v, "timeout_seconds") == Some(Int(s.timeout))
    requires Get(v, "failure_strategy") == Some(Str(s.failureStrategy))
    requires Get(v, "approval_policy_id") == Some(OptionText(s.approvalPolicy))
    ensures ReadSettings(v) == Ok(s)
  {
  }

  /** Normalising twice is normalising once. */
  lemma NormalizeIdempotent(v: Json)
    requires NormalizeDefinition(v).Ok?
    ensures NormalizeDefinition(DefinitionJson(NormalizeDefinition(v).value)) == NormalizeDefinition(v)
  {
    NormalizeNormal(v);
    NormalizeStored(NormalizeDefinition(v).value);
  }
}
