/**
 The bytes an execution snapshot's digest is taken of (backend/app/runtime/execution_snapshot.py,
 `_frozen_v4_projection`, `canonical_snapshot_bytes`, `verify_snapshot_digest`).

 Snapshots of schema versions 1 to 4 are digested without the fields that later versions added.  `Agree` says, key by
 key and without rewriting anything, what two payloads must have in common; it is proved to be exactly what equal
 bytes mean.
 */
module SnapshotProjection {
  import opened Outcomes
  import opened Utf8
  import opened Json
  import opened Canonical
  import opened PyDict
  import opened TeamService

  const TOOL_FIELDS: seq<string> :=
    ["tool_id", "version", "name", "description", "input_schema", "published", "enabled", "source_available"]

  const RESOURCE_FIELDS: seq<string> :=
    ["skill_id", "version_id", "package_digest", "object_key", "archive_sha256", "size_bytes", "files"]

  const TEAM_ONLY_FIELDS: seq<string> := ["tool_ids", "skill_names", "knowledge_source_ids", "approval_policy_id"]

  // ---------- dictionaries changed in place ----------

  /** `dict.pop(key, None)` */
  function RemoveKey(fields: seq<Field>, key: string): seq<Field> {
    if fields == [] then []
    else if fields[0].key == key then fields[1..]
    else [fields[0]] + RemoveKey(fields[1..], key)
  }

  function RemoveKeys(fields: seq<Field>, keys: seq<string>): seq<Field>
    decreases keys
  {
    if keys == [] then fields else RemoveKeys(RemoveKey(fields, keys[0]), keys[1..])
  }

  /** The list under a key, empty when there is none. */
  function Items(v: Option<Json>): seq<Json> {
    if v.Some? && v.value.Arr? then v.value.items else []
  }

  function MapItems(items: seq<Json>, f: Json -> Json): (r: seq<Json>)
    ensures |r| == |items| && forall i :: 0 <= i < |r| ==> r[i] == f(items[i])
  {
    seq(|items|, i requires 0 <= i < |items| => f(items[i]))
  }

  /** `d[key] = [f(item) for item in d.get(key, ())]` */
  function Rewrite(fields: seq<Field>, key: string, f: Json -> Json): seq<Field> {
    SetKey(fields, key, Arr(MapItems(Items(Lookup(fields, key)), f)))
  }

  /** A value that is changed where it stands, if it is there. */
  function Touch(fields: seq<Field>, key: string, f: Json -> Json): seq<Field> {
    match Lookup(fields, key)
    case Some(x) => SetKey(fields, key, f(x))
    case None => fields
  }

  // ---------- the projection ----------

  /** What Python's `any` takes for true. */
  predicate Truthy(v: Json) {
    match v
    case Null => false
    case Bool(b) => b
    case Int(n) => n != 0
    case Float(t) => t !in ["0.0", "-0.0"]
    case Str(s) => s != ""
    case Arr(items) => items != []
    case Obj(fields) => fields != []
  }

  predicate HasResources(skill: Json) {
    exists f :: f in RESOURCE_FIELDS && Truthy(GetOr(skill, f, Null))
  }

  function Values(v: Json, keys: seq<string>): (r: seq<Json>)
    ensures |r| == |keys|
  {
    seq(|keys|, i requires 0 <= i < |keys| => GetOr(v, keys[i], Null))
  }

  function ProjectSkill(v: Json): Json {
    Obj([Field("name", GetOr(v, "name", Str("")))] +
        if HasResources(v) then ZipFields(RESOURCE_FIELDS, Values(v, RESOURCE_FIELDS)) else [])
  }

  function ProjectKnowledge(v: Json): Json {
    Obj([Field("tool_id", GetOr(v, "tool_id", Null))])
  }

  function ProjectTool(v: Json): Json {
    Obj(ZipFields(TOOL_FIELDS, Values(v, TOOL_FIELDS)))
  }

  /** The three lists a payload and each team member carry. */
  function ProjectLists(fields: seq<Field>): seq<Field> {
    Rewrite(Rewrite(Rewrite(fields, "skills", ProjectSkill), "knowledge_sources", ProjectKnowledge), "tools",
            ProjectTool)
  }

  function ProjectMember(v: Json): Json {
    if v.Obj? then Obj(ProjectLists(v.fields)) else v
  }

  function ProjectMembers(v: Json): Json {
    if v.Arr? then Arr(MapItems(v.items, ProjectMember)) else v
  }

  predicate IsTeam(actor: Json) {
    Get(actor, "kind") == Some(Str("team"))
  }

  function ProjectTeam(fields: seq<Field>): seq<Field> {
    Touch(Touch(RemoveKeys(fields, TEAM_ONLY_FIELDS), "supervisor", ProjectMember), "members", ProjectMembers)
  }

  function ProjectActor(version: Version, actor: Json): Json {
    if !actor.Obj? then actor
    else
      var fields := if IsTeam(actor) then ProjectTeam(actor.fields) else actor.fields;
      Obj(if version <= 3 then RemoveKey(fields, "kind") else fields)
  }

  const BYTE_LIMIT := "snapshot_max_bytes"

  function OnlyByteLimit(limits: Json): Json {
    Obj([Field(BYTE_LIMIT, GetOr(limits, BYTE_LIMIT, Null))])
  }

  type Version = n: int | 1 <= n <= 5 witness 1

  const VERSIONS: seq<string> := ["1", "2", "3", "4", "5"]

  function VersionOf(v: Json): Version {
    if exists i :: 0 <= i < 5 && Get(v, "schema_version") == Some(Str(VERSIONS[i])) then
      var i :| 0 <= i < 5 && Get(v, "schema_version") == Some(Str(VERSIONS[i]));
      i + 1
    else 1
  }

  /** The dictionary the digest of a payload of this schema version is taken of. */
  function Project(version: Version, v: Dict): seq<Field> {
    if version == 5 then v.fields
    else
      var lists := ProjectLists(v.fields);
      var actor := Touch(lists, "actor", a => ProjectActor(version, a));
      var tools := if version == 1 then RemoveKey(actor, "tools") else actor;
      if version <= 2 then SetKey(tools, "limits", OnlyByteLimit(GetOr(v, "limits", Obj([])))) else tools
  }

  function SnapshotBytes(v: Dict): seq<byte> {
    Bytes(Obj(Project(VersionOf(v), v)))
  }

  function SnapshotDigest(h: Hash, v: Dict): string {
    h(SnapshotBytes(v))
  }

  // ---------- what two payloads must have in common ----------

  ghost predicate SameOutside(v: seq<Field>, w: seq<Field>, keys: seq<string>) {
    forall key :: key !in keys ==> Same(Lookup(v, key), Lookup(w, key))
  }

  ghost predicate Pairwise(xs: seq<Json>, ys: seq<Json>, agree: (Json, Json) -> bool) {
    |xs| == |ys| && forall i :: 0 <= i < |xs| ==> agree(xs[i], ys[i])
  }

  predicate EqualUnder(x: Json, y: Json, keys: seq<string>) {
    forall i :: 0 <= i < |keys| ==> DictEq(GetOr(x, keys[i], Null), GetOr(y, keys[i], Null))
  }

  /** Skills agree on their name and, if either has any resource, on all seven resource fields. */
  predicate SkillsAgree(x: Json, y: Json) {
    && DictEq(GetOr(x, "name", Str("")), GetOr(y, "name", Str("")))
    && Resourceful(x) == Resourceful(y)
    && (Resourceful(x) ==>
          EqualUnder(x, y, ["skill_id", "version_id", "package_digest", "object_key", "archive_sha256", "size_bytes",
                            "files"]))
  }

  /** Some resource field is there and neither null, false, zero nor empty. */
  predicate Resourceful(v: Json) {
    exists key :: key in ["skill_id", "version_id", "package_digest", "object_key", "archive_sha256", "size_bytes",
                          "files"]
                  && SaysMore(GetOr(v, key, Null))
  }

  predicate SaysMore(v: Json) {
    v !in [Null, Bool(false), Int(0), Str(""), Arr([]), Obj([])] && !(v.Float? && v.text in ["0.0", "-0.0"])
  }

  lemma ResourcefulIs(v: Json)
    ensures HasResources(v) <==> Resourceful(v)
  {
    hide GetOr;
    assert forall x: Json :: Truthy(x) <==> SaysMore(x);
  }

  predicate KnowledgeAgrees(x: Json, y: Json) {
    DictEq(GetOr(x, "tool_id", Null), GetOr(y, "tool_id", Null))
  }

  predicate ToolsAgree(x: Json, y: Json) {
    EqualUnder(x, y, ["tool_id", "version", "name", "description", "input_schema", "published", "enabled",
                      "source_available"])
  }

  const LISTS: seq<string> := ["skills", "knowledge_sources", "tools"]

  ghost predicate ListsAgree(v: seq<Field>, w: seq<Field>) {
    && Pairwise(Items(Lookup(v, "skills")), Items(Lookup(w, "skills")), SkillsAgree)
    && Pairwise(Items(Lookup(v, "knowledge_sources")), Items(Lookup(w, "knowledge_sources")), KnowledgeAgrees)
    && Pairwise(Items(Lookup(v, "tools")), Items(Lookup(w, "tools")), ToolsAgree)
  }
  /** Team members agree on their three projected lists and on everything else they hold. */
  ghost predicate MembersAgree(x: Json, y: Json) {
    if x.Obj? && y.Obj? then ListsAgree(x.fields, y.fields) && SameOutside(x.fields, y.fields, LISTS)
    else DictEq(x, y)
  }

  ghost predicate RostersAgree(x: Json, y: Json) {
    if x.Arr? && y.Arr? then Pairwise(x.items, y.items, MembersAgree) else DictEq(x, y)
  }

  ghost predicate SameBy(x: Option<Json>, y: Option<Json>, agree: (Json, Json) -> bool) {
    (x.None? && y.None?) || (x.Some? && y.Some? && agree(x.value, y.value))
  }

  const ROSTER: seq<string> := ["supervisor", "members"]

  function Dropped(version: Version): seq<string> {
    if version <= 3 then ["kind"] else []
  }

  /** Actors are both teams or neither; a team's four lists and policy do not count, nor `kind` up to version 3. */
  ghost predicate ActorsAgree(version: Version, x: Json, y: Json) {
    if x.Obj? && y.Obj? then
      && (Get(x, "kind") == Some(Str("team")) <==> Get(y, "kind") == Some(Str("team")))
      && if Get(x, "kind") == Some(Str("team")) then
           && SameOutside(x.fields, y.fields,
                          ["tool_ids", "skill_names", "knowledge_source_ids", "approval_policy_id"] + ROSTER
                          + Dropped(version))
           && SameBy(Get(x, "supervisor"), Get(y, "supervisor"), MembersAgree)
           && SameBy(Get(x, "members"), Get(y, "members"), RostersAgree)
         else SameOutside(x.fields, y.fields, Dropped(version))
    else DictEq(x, y)
  }

  const REWRITTEN: seq<string> := LISTS + ["actor", "limits"]

  /** What two payloads of one schema version must have in common to be digested alike. */
  ghost predicate Agree(version: Version, v: Dict, w: Dict) {
    if version == 5 then DictEq(v, w)
    else
      && SameOutside(v.fields, w.fields, REWRITTEN)
      && Pairwise(Items(Get(v, "skills")), Items(Get(w, "skills")), SkillsAgree)
      && Pairwise(Items(Get(v, "knowledge_sources")), Items(Get(w, "knowledge_sources")), KnowledgeAgrees)
      && (version == 1 || Pairwise(Items(Get(v, "tools")), Items(Get(w, "tools")), ToolsAgree))
      && SameBy(Get(v, "actor"), Get(w, "actor"), (x, y) => ActorsAgree(version, x, y))
      && (if version <= 2 then DictEq(ByteLimit(v), ByteLimit(w)) else Same(Get(v, "limits"), Get(w, "limits")))
  }

  function ByteLimit(v: Json): Json {
    GetOr(GetOr(v, "limits", Obj([])), "snapshot_max_bytes", Null)
  }

  // ---------- lookups decide equality of dictionaries ----------

  predicate Same(x: Option<Json>, y: Option<Json>) {
    (x.None? && y.None?) || (x.Some? && y.Some? && DictEq(x.value, y.value))
  }

  lemma {:induction false} LookupIs(fields: seq<Field>, key: string)
    ensures Lookup(fields, key).Some? ==> Field(key, Lookup(fields, key).value) in fields
    ensures Lookup(fields, key).None? <==> forall f :: f in fields ==> f.key != key
  {
    if fields != [] {
      LookupIs(fields[1..], key);
      assert fields == [fields[0]] + fields[1..];
    }
  }

  lemma LookupOf(fields: seq<Field>, f: Field)
    requires Distinct(Keys(fields)) && f in fields
    ensures Lookup(fields, f.key) == Some(f.value)
  {
    var i :| 0 <= i < |fields| && fields[i] == f;
    LookupAt(fields, i);
  }

  predicate Covers(fs: seq<Field>, gs: seq<Field>) {
    forall f :: f in fs ==> exists g :: g in gs && FieldEq(f, g)
  }

  predicate Covered(fs: seq<Field>, gs: seq<Field>) {
    forall g :: g in gs ==> exists f :: f in fs && FieldEq(f, g)
  }

  lemma EqualObjects(fs: seq<Field>, gs: seq<Field>)
    ensures DictEq(Obj(fs), Obj(gs)) <==> Covers(fs, gs) && Covered(fs, gs)
  {
  }

  /** Two dictionaries are equal exactly when every key looks up the same. */
  lemma EqualByLookups(fs: seq<Field>, gs: seq<Field>)
    requires Distinct(Keys(fs)) && Distinct(Keys(gs))
    ensures DictEq(Obj(fs), Obj(gs)) <==> SameLookups(fs, gs)
  {
    hide DictEq, Distinct, Keys, Covers, Covered;
    EqualObjects(fs, gs);
    if Covers(fs, gs) && Covered(fs, gs) {
      forall key ensures Same(Lookup(fs, key), Lookup(gs, key)) {
        EqualLookup(fs, gs, key);
      }
    }
    if SameLookups(fs, gs) {
      LookupsMatch(fs, gs);
    }
  }

  ghost predicate SameLookups(fs: seq<Field>, gs: seq<Field>) {
    forall key :: Same(Lookup(fs, key), Lookup(gs, key))
  }

  lemma LookupsMatch(fs: seq<Field>, gs: seq<Field>)
    requires Distinct(Keys(fs)) && Distinct(Keys(gs)) && SameLookups(fs, gs)
    ensures Covers(fs, gs) && Covered(fs, gs)
  {
    hide DictEq, Distinct, Keys;
    forall f | f in fs ensures exists g :: g in gs && FieldEq(f, g) {
      LookupOf(fs, f);
      LookupIs(gs, f.key);
      var g := Field(f.key, Lookup(gs, f.key).value);
      assert Same(Lookup(fs, f.key), Lookup(gs, f.key)) && FieldEq(f, g);
    }
    forall g | g in gs ensures exists f :: f in fs && FieldEq(f, g) {
      LookupOf(gs, g);
      LookupIs(fs, g.key);
      var f := Field(g.key, Lookup(fs, g.key).value);
      assert Same(Lookup(fs, g.key), Lookup(gs, g.key)) && FieldEq(f, g);
    }
  }

  lemma EqualLookup(fs: seq<Field>, gs: seq<Field>, key: string)
    requires Distinct(Keys(fs)) && Distinct(Keys(gs)) && Covers(fs, gs) && Covered(fs, gs)
    ensures Same(Lookup(fs, key), Lookup(gs, key))
  {
    hide DictEq, Distinct, Keys;
    LookupIs(fs, key);
    if Lookup(gs, key).Some? {
      CoveredLookup(fs, gs, key);
    }
    if Lookup(fs, key).Some? {
      var f := Field(key, Lookup(fs, key).value);
      var g :| g in gs && FieldEq(f, g);
      LookupOf(gs, g);
    }
  }

  lemma CoveredLookup(fs: seq<Field>, gs: seq<Field>, key: string)
    requires Covered(fs, gs) && Lookup(gs, key).Some?
    ensures Lookup(fs, key).Some?
  {
    hide DictEq;
    LookupIs(gs, key);
    LookupIs(fs, key);
    var g := Field(key, Lookup(gs, key).value);
    var f :| f in fs && FieldEq(f, g);
  }

  // ---------- what a change in place does to lookups ----------

  lemma {:induction false} LookupSet(fields: seq<Field>, name: string, value: Json, key: string)
    ensures Lookup(SetKey(fields, name, value), key) == if key == name then Some(value) else Lookup(fields, key)
  {
    if fields != [] && fields[0].key != name {
      LookupSet(fields[1..], name, value, key);
    }
  }

  lemma {:induction false} LookupRemoved(fields: seq<Field>, name: string, key: string)
    requires Distinct(Keys(fields))
    ensures Lookup(RemoveKey(fields, name), key) == if key == name then None else Lookup(fields, key)
  {
    if fields != [] {
      TailDistinct(fields);
      if fields[0].key != name {
        LookupRemoved(fields[1..], name, key);
      }
    }
  }

  lemma TailDistinct(fields: seq<Field>)
    requires fields != [] && Distinct(Keys(fields))
    ensures Distinct(Keys(fields[1..])) && Lookup(fields[1..], fields[0].key) == None
  {
    assert Keys(fields[1..]) == Keys(fields)[1..];
    forall i | 0 <= i < |fields[1..]| ensures fields[1..][i].key != fields[0].key {
      assert Keys(fields)[0] == fields[0].key && Keys(fields)[i + 1] == fields[1..][i].key;
    }
    LookupMissing(fields[1..], fields[0].key);
  }

  lemma WellFormedCons(f: Field, fs: seq<Field>)
    requires WellFormed(f.value) && WellFormedFields(fs) && Lookup(fs, f.key) == None
    ensures WellFormedFields([f] + fs)
  {
    LookupIs(fs, f.key);
    assert Keys([f] + fs) == [f.key] + Keys(fs);
    forall i | 0 <= i < |fs| ensures Keys(fs)[i] != f.key {
      assert fs[i] in fs;
    }
  }

  lemma WellFormedTail(fields: seq<Field>)
    requires fields != [] && WellFormedFields(fields)
    ensures WellFormedFields(fields[1..])
  {
    TailDistinct(fields);
  }

  lemma {:induction false} SetWellFormed(fields: seq<Field>, key: string, value: Json)
    requires WellFormedFields(fields) && WellFormed(value)
    ensures WellFormedFields(SetKey(fields, key, value))
  {
    if fields != [] {
      hide WellFormed, Keys, Distinct;
      WellFormedTail(fields);
      FirstIsNew(fields);
      if fields[0].key == key {
        WellFormedCons(Field(key, value), fields[1..]);
      } else {
        SetWellFormed(fields[1..], key, value);
        LookupSet(fields[1..], key, value, fields[0].key);
        WellFormedCons(fields[0], SetKey(fields[1..], key, value));
      }
    } else {
      assert Keys([Field(key, value)]) == [key];
    }
  }

  lemma FirstIsNew(fields: seq<Field>)
    requires fields != [] && WellFormedFields(fields)
    ensures Lookup(fields[1..], fields[0].key) == None && WellFormed(fields[0].value)
  {
    TailDistinct(fields);
  }

  lemma {:induction false} RemoveWellFormed(fields: seq<Field>, key: string)
    requires WellFormedFields(fields)
    ensures WellFormedFields(RemoveKey(fields, key))
  {
    if fields != [] {
      hide WellFormed, Keys, Distinct;
      WellFormedTail(fields);
      FirstIsNew(fields);
      if fields[0].key != key {
        RemoveWellFormed(fields[1..], key);
        RemovedStaysNew(fields, key);
        WellFormedCons(fields[0], RemoveKey(fields[1..], key));
      }
    }
  }

  lemma RemovedStaysNew(fields: seq<Field>, key: string)
    requires fields != [] && WellFormedFields(fields)
    ensures Lookup(RemoveKey(fields[1..], key), fields[0].key) == None
  {
    TailDistinct(fields);
    LookupRemoved(fields[1..], key, fields[0].key);
  }

  lemma LookupWellFormed(fields: seq<Field>, key: string)
    requires WellFormedFields(fields) && Lookup(fields, key).Some?
    ensures WellFormed(Lookup(fields, key).value)
  {
    LookupIs(fields, key);
    var f := Field(key, Lookup(fields, key).value);
    var i :| 0 <= i < |fields| && fields[i] == f;
  }

  // ---------- projected items ----------

  lemma ZipWellFormed(keys: seq<string>, values: seq<Json>)
    requires |keys| == |values| && Distinct(keys)
    requires forall i :: 0 <= i < |values| ==> WellFormed(values[i])
    ensures WellFormedFields(ZipFields(keys, values))
  {
  }

  lemma ValuesWellFormed(v: Json, keys: seq<string>)
    requires WellFormed(v)
    ensures forall i :: 0 <= i < |keys| ==> WellFormed(Values(v, keys)[i])
  {
    forall i | 0 <= i < |keys| ensures WellFormed(Values(v, keys)[i]) {
      GetWellFormed(v, keys[i]);
    }
  }

  lemma GetWellFormed(v: Json, key: string)
    requires WellFormed(v)
    ensures Get(v, key).Some? ==> WellFormed(Get(v, key).value)
  {
    if Get(v, key).Some? {
      LookupWellFormed(v.fields, key);
    }
  }

  lemma ZipLookup(keys: seq<string>, values: seq<Json>, key: string)
    requires |keys| == |values| && Distinct(keys)
    ensures Lookup(ZipFields(keys, values), key).Some? <==> key in keys
    ensures forall i :: 0 <= i < |keys| && keys[i] == key ==> Lookup(ZipFields(keys, values), key) == Some(values[i])
  {
    var fs := ZipFields(keys, values);
    if key in keys {
      var i :| 0 <= i < |keys| && keys[i] == key;
      LookupAt(fs, i);
    } else {
      LookupMissing(fs, key);
    }
  }

  lemma ZipEqual(keys: seq<string>, xs: seq<Json>, ys: seq<Json>)
    requires |keys| == |xs| == |ys| && Distinct(keys)
    ensures DictEq(Obj(ZipFields(keys, xs)), Obj(ZipFields(keys, ys))) <==>
            forall i :: 0 <= i < |keys| ==> DictEq(xs[i], ys[i])
  {
    hide DictEq, Distinct;
    var fs, gs := ZipFields(keys, xs), ZipFields(keys, ys);
    EqualByLookups(fs, gs);
    if SameLookups(fs, gs) {
      forall i | 0 <= i < |keys| ensures DictEq(xs[i], ys[i]) {
        ZipLookup(keys, xs, keys[i]);
        ZipLookup(keys, ys, keys[i]);
        assert Same(Lookup(fs, keys[i]), Lookup(gs, keys[i]));
      }
    }
    if forall i :: 0 <= i < |keys| ==> DictEq(xs[i], ys[i]) {
      forall key ensures Same(Lookup(fs, key), Lookup(gs, key)) {
        ZipLookup(keys, xs, key);
        ZipLookup(keys, ys, key);
        if key in keys {
          var i :| 0 <= i < |keys| && keys[i] == key;
        }
      }
    }
  }

  lemma OneEqual(key: string, x: Json, y: Json)
    ensures DictEq(Obj([Field(key, x)]), Obj([Field(key, y)])) <==> DictEq(x, y)
  {
    hide DictEq;
    var xs, ys := [x], [y];
    assert ZipFields([key], xs) == [Field(key, x)] && ZipFields([key], ys) == [Field(key, y)];
    ZipEqual([key], xs, ys);
    assert xs[0] == x && ys[0] == y;
  }

  lemma ZipDiffers(keys: seq<string>, xs: seq<Json>, more: seq<string>, ys: seq<Json>, key: string)
    requires |keys| == |xs| && Distinct(keys) && |more| == |ys| && Distinct(more)
    requires key !in keys && key in more
    ensures !DictEq(Obj(ZipFields(keys, xs)), Obj(ZipFields(more, ys)))
    ensures !DictEq(Obj(ZipFields(more, ys)), Obj(ZipFields(keys, xs)))
  {
    hide DictEq, Distinct;
    var fs, gs := ZipFields(keys, xs), ZipFields(more, ys);
    EqualByLookups(fs, gs);
    EqualByLookups(gs, fs);
    ZipLookup(keys, xs, key);
    ZipLookup(more, ys, key);
    assert !Same(Lookup(fs, key), Lookup(gs, key)) && !Same(Lookup(gs, key), Lookup(fs, key));
  }

  const NAMED: seq<string> := ["name"]

  const RESOURCEFUL: seq<string> := NAMED + RESOURCE_FIELDS

  lemma FieldsDistinct()
    ensures Distinct(NAMED) && Distinct(RESOURCEFUL) && Distinct(TOOL_FIELDS) && Distinct(["tool_id"])
    ensures RESOURCEFUL[1] == "skill_id" && "skill_id" in RESOURCEFUL && "skill_id" !in NAMED
  {
    assert |RESOURCEFUL| == 8 && |TOOL_FIELDS| == 8;
  }

  function ResourcefulValues(v: Json): (r: seq<Json>)
    ensures |r| == |RESOURCEFUL|
  {
    [GetOr(v, "name", Str(""))] + Values(v, RESOURCE_FIELDS)
  }

  lemma SkillAsZip(v: Json)
    ensures HasResources(v) ==> ProjectSkill(v) == Obj(ZipFields(RESOURCEFUL, ResourcefulValues(v)))
    ensures !HasResources(v) ==> ProjectSkill(v) == Obj(ZipFields(NAMED, [GetOr(v, "name", Str(""))]))
  {
    hide HasResources;
    assert ZipFields(NAMED, [GetOr(v, "name", Str(""))]) == [Field("name", GetOr(v, "name", Str("")))];
    assert ZipFields(RESOURCEFUL, ResourcefulValues(v))
        == [Field("name", GetOr(v, "name", Str("")))] + ZipFields(RESOURCE_FIELDS, Values(v, RESOURCE_FIELDS));
  }

  lemma SkillProjected(x: Json, y: Json)
    ensures DictEq(ProjectSkill(x), ProjectSkill(y)) <==> SkillsAgree(x, y)
  {
    hide HasResources, DictEq, Distinct, Values, ProjectSkill;
    FieldsDistinct();
    ResourcefulIs(x);
    ResourcefulIs(y);
    SkillAsZip(x);
    SkillAsZip(y);
    var a, b := [GetOr(x, "name", Str(""))], [GetOr(y, "name", Str(""))];
    if HasResources(x) && HasResources(y) {
      ZipEqual(RESOURCEFUL, ResourcefulValues(x), ResourcefulValues(y));
      NamedAndEqual(x, y);
    } else if HasResources(y) {
      ZipDiffers(NAMED, a, RESOURCEFUL, ResourcefulValues(y), "skill_id");
    } else if HasResources(x) {
      ZipDiffers(NAMED, b, RESOURCEFUL, ResourcefulValues(x), "skill_id");
    } else {
      NameOnly(x);
      NameOnly(y);
      OneEqual("name", a[0], b[0]);
    }
  }

  lemma NameOnly(v: Json)
    requires !HasResources(v)
    ensures ProjectSkill(v) == Obj([Field("name", GetOr(v, "name", Str("")))])
  {
    assert [Field("name", GetOr(v, "name", Str("")))] + [] == [Field("name", GetOr(v, "name", Str("")))];
  }

  lemma ConsEqual(x: Json, xs: seq<Json>, vs: seq<Json>, y: Json, ys: seq<Json>, ws: seq<Json>)
    requires |xs| == |ys| && vs == [x] + xs && ws == [y] + ys
    ensures (forall i :: 0 <= i < |vs| ==> DictEq(vs[i], ws[i]))
       <==> DictEq(x, y) && forall i :: 0 <= i < |xs| ==> DictEq(xs[i], ys[i])
  {
    hide DictEq;
    if forall i :: 0 <= i < |vs| ==> DictEq(vs[i], ws[i]) {
      assert DictEq(vs[0], ws[0]);
      forall i | 0 <= i < |xs| ensures DictEq(xs[i], ys[i]) {
        assert DictEq(vs[i + 1], ws[i + 1]);
      }
    }
  }

  lemma NamedAndEqual(x: Json, y: Json)
    ensures (forall i :: 0 <= i < |RESOURCEFUL| ==> DictEq(ResourcefulValues(x)[i], ResourcefulValues(y)[i]))
       <==> DictEq(GetOr(x, "name", Str("")), GetOr(y, "name", Str(""))) && EqualUnder(x, y, RESOURCE_FIELDS)
  {
    hide DictEq, GetOr;
    var xs, ys := Values(x, RESOURCE_FIELDS), Values(y, RESOURCE_FIELDS);
    ConsEqual(GetOr(x, "name", Str("")), xs, ResourcefulValues(x), GetOr(y, "name", Str("")), ys, ResourcefulValues(y));
    UnderValues(x, y, RESOURCE_FIELDS);
  }

  lemma UnderValues(x: Json, y: Json, keys: seq<string>)
    ensures EqualUnder(x, y, keys) <==> forall i :: 0 <= i < |keys| ==> DictEq(Values(x, keys)[i], Values(y, keys)[i])
  {
    hide DictEq, GetOr;
    var xs, ys := Values(x, keys), Values(y, keys);
    forall i | 0 <= i < |keys| ensures xs[i] == GetOr(x, keys[i], Null) && ys[i] == GetOr(y, keys[i], Null) {
    }
    if forall i :: 0 <= i < |keys| ==> DictEq(xs[i], ys[i]) {
      forall i | 0 <= i < |keys| ensures DictEq(GetOr(x, keys[i], Null), GetOr(y, keys[i], Null)) {
        assert DictEq(xs[i], ys[i]);
      }
    }
  }

  lemma KnowledgeProjected(x: Json, y: Json)
    ensures DictEq(ProjectKnowledge(x), ProjectKnowledge(y)) <==> KnowledgeAgrees(x, y)
  {
    hide DictEq;
    OneEqual("tool_id", GetOr(x, "tool_id", Null), GetOr(y, "tool_id", Null));
  }

  lemma ToolProjected(x: Json, y: Json)
    ensures DictEq(ProjectTool(x), ProjectTool(y)) <==> ToolsAgree(x, y)
  {
    hide DictEq, Distinct;
    FieldsDistinct();
    ZipEqual(TOOL_FIELDS, Values(x, TOOL_FIELDS), Values(y, TOOL_FIELDS));
  }

  lemma ItemsWellFormed(v: Json, keys: seq<string>)
    requires WellFormed(v) && Distinct(keys)
    ensures WellFormed(Obj(ZipFields(keys, Values(v, keys))))
  {
    ValuesWellFormed(v, keys);
    ZipWellFormed(keys, Values(v, keys));
    WellFormedObject(ZipFields(keys, Values(v, keys)));
  }

  lemma SkillWellFormed(v: Json)
    requires WellFormed(v)
    ensures WellFormed(ProjectSkill(v))
  {
    hide HasResources, Distinct;
    FieldsDistinct();
    SkillAsZip(v);
    GetWellFormed(v, "name");
    ValuesWellFormed(v, RESOURCE_FIELDS);
    if HasResources(v) {
      ZipWellFormed(RESOURCEFUL, ResourcefulValues(v));
    } else {
      ZipWellFormed(NAMED, [GetOr(v, "name", Str(""))]);
    }
    WellFormedObject(ProjectSkill(v).fields);
  }

  lemma KnowledgeWellFormed(v: Json)
    requires WellFormed(v)
    ensures WellFormed(ProjectKnowledge(v))
  {
    GetWellFormed(v, "tool_id");
  }

  lemma ToolWellFormed(v: Json)
    requires WellFormed(v)
    ensures WellFormed(ProjectTool(v))
  {
    FieldsDistinct();
    ItemsWellFormed(v, TOOL_FIELDS);
  }

  // ---------- projected lists ----------

  lemma ArraysEqual(xs: seq<Json>, ys: seq<Json>)
    ensures DictEq(Arr(xs), Arr(ys)) <==> |xs| == |ys| && forall i :: 0 <= i < |xs| ==> DictEq(xs[i], ys[i])
  {
  }

  lemma MappedEqual(xs: seq<Json>, ys: seq<Json>, f: Json -> Json, agree: (Json, Json) -> bool)
    requires forall i :: 0 <= i < |xs| && i < |ys| ==> (DictEq(f(xs[i]), f(ys[i])) <==> agree(xs[i], ys[i]))
    ensures DictEq(Arr(MapItems(xs, f)), Arr(MapItems(ys, f))) <==> Pairwise(xs, ys, agree)
  {
    hide DictEq;
    ArraysEqual(MapItems(xs, f), MapItems(ys, f));
  }

  lemma MappedWellFormed(xs: seq<Json>, f: Json -> Json)
    requires forall i :: 0 <= i < |xs| ==> WellFormed(f(xs[i]))
    ensures WellFormed(Arr(MapItems(xs, f)))
  {
  }

  lemma ItemsOfWellFormed(fields: seq<Field>, key: string)
    requires WellFormedFields(fields)
    ensures forall i :: 0 <= i < |Items(Lookup(fields, key))| ==> WellFormed(Items(Lookup(fields, key))[i])
  {
    if Lookup(fields, key).Some? {
      LookupWellFormed(fields, key);
    }
  }

  function ProjectedList(fields: seq<Field>, key: string): Json {
    Arr(MapItems(Items(Lookup(fields, key)),
                 if key == "skills" then ProjectSkill else if key == "tools" then ProjectTool else ProjectKnowledge))
  }

  lemma ListsDiffer()
    ensures "skills" != "knowledge_sources" && "skills" != "tools" && "knowledge_sources" != "tools"
  {
    assert |"skills"| != |"tools"| && |"skills"| != |"knowledge_sources"| && |"tools"| != |"knowledge_sources"|;
  }

  lemma ListsLookup(fields: seq<Field>, key: string)
    ensures Lookup(ProjectLists(fields), key) ==
            if key in LISTS then Some(ProjectedList(fields, key)) else Lookup(fields, key)
  {
    hide SetKey, Lookup, ProjectSkill, ProjectTool, ProjectKnowledge, Items, MapItems;
    ListsDiffer();
    var one := Rewrite(fields, "skills", ProjectSkill);
    var two := Rewrite(one, "knowledge_sources", ProjectKnowledge);
    RewriteLookup(fields, "skills", ProjectSkill, key);
    RewriteLookup(fields, "skills", ProjectSkill, "knowledge_sources");
    RewriteLookup(fields, "skills", ProjectSkill, "tools");
    RewriteLookup(one, "knowledge_sources", ProjectKnowledge, key);
    RewriteLookup(one, "knowledge_sources", ProjectKnowledge, "tools");
    RewriteLookup(two, "tools", ProjectTool, key);
  }

  lemma RewriteLookup(fields: seq<Field>, name: string, f: Json -> Json, key: string)
    ensures Lookup(Rewrite(fields, name, f), key) ==
            if key == name then Some(Arr(MapItems(Items(Lookup(fields, name)), f))) else Lookup(fields, key)
  {
    LookupSet(fields, name, Arr(MapItems(Items(Lookup(fields, name)), f)), key);
  }

  lemma RewriteWellFormed(fields: seq<Field>, name: string, f: Json -> Json)
    requires WellFormedFields(fields)
    requires forall x :: WellFormed(x) ==> WellFormed(f(x))
    ensures WellFormedFields(Rewrite(fields, name, f))
  {
    hide SetKey, Lookup, WellFormedFields;
    ItemsOfWellFormed(fields, name);
    MappedWellFormed(Items(Lookup(fields, name)), f);
    SetWellFormed(fields, name, Arr(MapItems(Items(Lookup(fields, name)), f)));
  }

  lemma ListsWellFormed(fields: seq<Field>)
    requires WellFormedFields(fields)
    ensures WellFormedFields(ProjectLists(fields))
  {
    hide Rewrite, WellFormedFields, ProjectSkill, ProjectKnowledge, ProjectTool, WellFormed;
    forall x | WellFormed(x) ensures WellFormed(ProjectSkill(x)) { SkillWellFormed(x); }
    forall x | WellFormed(x) ensures WellFormed(ProjectKnowledge(x)) { KnowledgeWellFormed(x); }
    forall x | WellFormed(x) ensures WellFormed(ProjectTool(x)) { ToolWellFormed(x); }
    var one := Rewrite(fields, "skills", ProjectSkill);
    RewriteWellFormed(fields, "skills", ProjectSkill);
    var two := Rewrite(one, "knowledge_sources", ProjectKnowledge);
    RewriteWellFormed(one, "knowledge_sources", ProjectKnowledge);
    RewriteWellFormed(two, "tools", ProjectTool);
  }

  lemma SkillsEqual(fs: seq<Field>, gs: seq<Field>)
    ensures DictEq(ProjectedList(fs, "skills"), ProjectedList(gs, "skills"))
       <==> Pairwise(Items(Lookup(fs, "skills")), Items(Lookup(gs, "skills")), SkillsAgree)
  {
    hide DictEq, ProjectSkill, SkillsAgree, Lookup;
    var xs, ys := Items(Lookup(fs, "skills")), Items(Lookup(gs, "skills"));
    forall i | 0 <= i < |xs| && i < |ys|
      ensures DictEq(ProjectSkill(xs[i]), ProjectSkill(ys[i])) <==> SkillsAgree(xs[i], ys[i])
    {
      SkillProjected(xs[i], ys[i]);
    }
    MappedEqual(xs, ys, ProjectSkill, SkillsAgree);
  }

  lemma KnowledgeEqual(fs: seq<Field>, gs: seq<Field>)
    ensures DictEq(ProjectedList(fs, "knowledge_sources"), ProjectedList(gs, "knowledge_sources"))
       <==> Pairwise(Items(Lookup(fs, "knowledge_sources")), Items(Lookup(gs, "knowledge_sources")), KnowledgeAgrees)
  {
    hide DictEq, ProjectKnowledge, KnowledgeAgrees, Lookup;
    ListsDiffer();
    var xs, ys := Items(Lookup(fs, "knowledge_sources")), Items(Lookup(gs, "knowledge_sources"));
    forall i | 0 <= i < |xs| && i < |ys|
      ensures DictEq(ProjectKnowledge(xs[i]), ProjectKnowledge(ys[i])) <==> KnowledgeAgrees(xs[i], ys[i])
    {
      KnowledgeProjected(xs[i], ys[i]);
    }
    MappedEqual(xs, ys, ProjectKnowledge, KnowledgeAgrees);
  }

  lemma ToolsEqual(fs: seq<Field>, gs: seq<Field>)
    ensures DictEq(ProjectedList(fs, "tools"), ProjectedList(gs, "tools"))
       <==> Pairwise(Items(Lookup(fs, "tools")), Items(Lookup(gs, "tools")), ToolsAgree)
  {
    hide DictEq, ProjectTool, ToolsAgree, Lookup;
    ListsDiffer();
    var xs, ys := Items(Lookup(fs, "tools")), Items(Lookup(gs, "tools"));
    forall i | 0 <= i < |xs| && i < |ys|
      ensures DictEq(ProjectTool(xs[i]), ProjectTool(ys[i])) <==> ToolsAgree(xs[i], ys[i])
    {
      ToolProjected(xs[i], ys[i]);
    }
    MappedEqual(xs, ys, ProjectTool, ToolsAgree);
  }

  /** Members are projected alike exactly when they agree. */
  lemma MemberProjected(x: Json, y: Json)
    requires WellFormed(x) && WellFormed(y)
    ensures DictEq(ProjectMember(x), ProjectMember(y)) <==> MembersAgree(x, y)
  {
    if x.Obj? && y.Obj? {
      MemberFieldsProjected(x.fields, y.fields);
    }
  }

  lemma MemberFieldsProjected(fs: seq<Field>, gs: seq<Field>)
    requires WellFormedFields(fs) && WellFormedFields(gs)
    ensures DictEq(Obj(ProjectLists(fs)), Obj(ProjectLists(gs))) <==>
            ListsAgree(fs, gs) && SameOutside(fs, gs, LISTS)
  {
    hide DictEq, ProjectLists, ProjectedList, Lookup, Items;
    ListsWellFormed(fs);
    ListsWellFormed(gs);
    EqualByLookups(ProjectLists(fs), ProjectLists(gs));
    SkillsEqual(fs, gs);
    KnowledgeEqual(fs, gs);
    ToolsEqual(fs, gs);
    forall key ensures Lookup(ProjectLists(fs), key) ==
                       if key in LISTS then Some(ProjectedList(fs, key)) else Lookup(fs, key) {
      ListsLookup(fs, key);
    }
    forall key ensures Lookup(ProjectLists(gs), key) ==
                       if key in LISTS then Some(ProjectedList(gs, key)) else Lookup(gs, key) {
      ListsLookup(gs, key);
    }
    assert "skills" in LISTS && "knowledge_sources" in LISTS && "tools" in LISTS;
    if SameLookups(ProjectLists(fs), ProjectLists(gs)) {
      assert Same(Lookup(ProjectLists(fs), "skills"), Lookup(ProjectLists(gs), "skills"));
      assert Same(Lookup(ProjectLists(fs), "knowledge_sources"), Lookup(ProjectLists(gs), "knowledge_sources"));
      assert Same(Lookup(ProjectLists(fs), "tools"), Lookup(ProjectLists(gs), "tools"));
      forall key | key !in LISTS ensures Same(Lookup(fs, key), Lookup(gs, key)) {
        assert Same(Lookup(ProjectLists(fs), key), Lookup(ProjectLists(gs), key));
      }
    }
    if ListsAgree(fs, gs) && SameOutside(fs, gs, LISTS) {
      forall key ensures Same(Lookup(ProjectLists(fs), key), Lookup(ProjectLists(gs), key)) {
      }
    }
  }

  // ---------- projected actors ----------

  function MapOption(x: Option<Json>, f: Json -> Json): Option<Json> {
    if x.Some? then Some(f(x.value)) else None
  }

  lemma TouchLookup(fields: seq<Field>, name: string, f: Json -> Json, key: string)
    ensures Lookup(Touch(fields, name, f), key) ==
            if key == name then MapOption(Lookup(fields, name), f) else Lookup(fields, key)
  {
    if Lookup(fields, name).Some? {
      LookupSet(fields, name, f(Lookup(fields, name).value), key);
    }
  }

  lemma TouchWellFormed(fields: seq<Field>, name: string, f: Json -> Json)
    requires WellFormedFields(fields)
    requires Lookup(fields, name).Some? && WellFormed(Lookup(fields, name).value) ==>
               WellFormed(f(Lookup(fields, name).value))
    ensures WellFormedFields(Touch(fields, name, f))
  {
    hide SetKey, Lookup, WellFormedFields;
    if Lookup(fields, name).Some? {
      LookupWellFormed(fields, name);
      SetWellFormed(fields, name, f(Lookup(fields, name).value));
    }
  }

  lemma {:induction false} RemoveKeysLookup(fields: seq<Field>, keys: seq<string>, key: string)
    requires WellFormedFields(fields)
    ensures WellFormedFields(RemoveKeys(fields, keys))
    ensures Lookup(RemoveKeys(fields, keys), key) == if key in keys then None else Lookup(fields, key)
    decreases keys
  {
    if keys != [] {
      hide WellFormed;
      LookupRemoved(fields, keys[0], key);
      RemoveWellFormed(fields, keys[0]);
      RemoveKeysLookup(RemoveKey(fields, keys[0]), keys[1..], key);
      assert keys == [keys[0]] + keys[1..];
    }
  }

  lemma MemberWellFormed(v: Json)
    requires WellFormed(v)
    ensures WellFormed(ProjectMember(v))
  {
    if v.Obj? {
      ListsWellFormed(v.fields);
      WellFormedObject(ProjectLists(v.fields));
    }
  }

  lemma MembersWellFormed(v: Json)
    requires WellFormed(v)
    ensures WellFormed(ProjectMembers(v))
  {
    if v.Arr? {
      forall i | 0 <= i < |v.items| ensures WellFormed(ProjectMember(v.items[i])) {
        assert v.items[i] in v.items;
        MemberWellFormed(v.items[i]);
      }
      MappedWellFormed(v.items, ProjectMember);
    }
  }

  lemma RosterProjected(x: Json, y: Json)
    requires WellFormed(x) && WellFormed(y)
    ensures DictEq(ProjectMembers(x), ProjectMembers(y)) <==> RostersAgree(x, y)
  {
    if x.Arr? && y.Arr? {
      var xs, ys := x.items, y.items;
      forall i | 0 <= i < |xs| && i < |ys|
        ensures DictEq(ProjectMember(xs[i]), ProjectMember(ys[i])) <==> MembersAgree(xs[i], ys[i])
      {
        assert xs[i] in xs && ys[i] in ys;
        MemberProjected(xs[i], ys[i]);
      }
      MappedEqual(xs, ys, ProjectMember, MembersAgree);
    }
  }

  lemma TeamOnlyLengths()
    ensures forall i :: 0 <= i < |TEAM_ONLY_FIELDS| ==> |TEAM_ONLY_FIELDS[i]| in [8, 11, 20, 18]
  {
  }

  lemma RosterKeysDiffer()
    ensures "supervisor" != "members" && "supervisor" != "kind" && "members" != "kind"
    ensures "supervisor" !in TEAM_ONLY_FIELDS && "members" !in TEAM_ONLY_FIELDS
  {
    hide *;
    assert |"supervisor"| == 10 && |"members"| == 7 && |"kind"| == 4;
    TeamOnlyLengths();
  }

  /** What each key of a projected team holds. */
  lemma TeamLookup(fields: seq<Field>, key: string)
    requires WellFormedFields(fields)
    ensures Lookup(ProjectTeam(fields), key) ==
            if key in TEAM_ONLY_FIELDS then None
            else if key == "supervisor" then MapOption(Lookup(fields, key), ProjectMember)
            else if key == "members" then MapOption(Lookup(fields, key), ProjectMembers)
            else Lookup(fields, key)
  {
    hide Touch, RemoveKeys, Lookup, ProjectMember, ProjectMembers, WellFormedFields;
    RosterKeysDiffer();
    var kept := RemoveKeys(fields, TEAM_ONLY_FIELDS);
    RemoveKeysLookup(fields, TEAM_ONLY_FIELDS, key);
    RemoveKeysLookup(fields, TEAM_ONLY_FIELDS, "supervisor");
    RemoveKeysLookup(fields, TEAM_ONLY_FIELDS, "members");
    var supervised := Touch(kept, "supervisor", ProjectMember);
    TouchLookup(kept, "supervisor", ProjectMember, key);
    TouchLookup(kept, "supervisor", ProjectMember, "members");
    TouchLookup(supervised, "members", ProjectMembers, key);
  }

  lemma TeamWellFormed(fields: seq<Field>)
    requires WellFormedFields(fields)
    ensures WellFormedFields(ProjectTeam(fields))
  {
    hide Touch, RemoveKeys, Lookup, ProjectMember, ProjectMembers, WellFormedFields, WellFormed;
    var kept := RemoveKeys(fields, TEAM_ONLY_FIELDS);
    RemoveKeysLookup(fields, TEAM_ONLY_FIELDS, "");
    if Lookup(kept, "supervisor").Some? && WellFormed(Lookup(kept, "supervisor").value) {
      MemberWellFormed(Lookup(kept, "supervisor").value);
    }
    TouchWellFormed(kept, "supervisor", ProjectMember);
    var supervised := Touch(kept, "supervisor", ProjectMember);
    if Lookup(supervised, "members").Some? && WellFormed(Lookup(supervised, "members").value) {
      MembersWellFormed(Lookup(supervised, "members").value);
    }
    TouchWellFormed(supervised, "members", ProjectMembers);
  }

  /** What a projected actor holds under a key. */
  function ActorUnder(version: Version, actor: Json, key: string): Option<Json>
    requires actor.Obj?
  {
    if key in Dropped(version) then None
    else if !IsTeam(actor) then Get(actor, key)
    else if key in TEAM_ONLY_FIELDS then None
    else if key == "supervisor" then MapOption(Get(actor, key), ProjectMember)
    else if key == "members" then MapOption(Get(actor, key), ProjectMembers)
    else Get(actor, key)
  }

  lemma ActorLookup(version: Version, actor: Json, key: string)
    requires actor.Obj? && WellFormed(actor)
    ensures ProjectActor(version, actor).Obj?
    ensures Lookup(ProjectActor(version, actor).fields, key) == ActorUnder(version, actor, key)
  {
    hide ProjectTeam, RemoveKey, Lookup, ProjectMember, ProjectMembers;
    var fields := if IsTeam(actor) then ProjectTeam(actor.fields) else actor.fields;
    if IsTeam(actor) {
      TeamLookup(actor.fields, key);
      TeamWellFormed(actor.fields);
    }
    if version <= 3 {
      LookupRemoved(fields, "kind", key);
    }
  }

  lemma ActorWellFormed(version: Version, actor: Json)
    requires WellFormed(actor)
    ensures WellFormed(ProjectActor(version, actor))
  {
    hide ProjectTeam, RemoveKey, Lookup;
    if actor.Obj? {
      var fields := if IsTeam(actor) then ProjectTeam(actor.fields) else actor.fields;
      if IsTeam(actor) {
        TeamWellFormed(actor.fields);
      }
      RemoveWellFormed(fields, "kind");
      WellFormedObject(ProjectActor(version, actor).fields);
    }
  }

  /** An actor has a supervisor exactly when it is a team, as the two payload models make it. */
  predicate WellKinded(actor: Json) {
    actor.Obj? && (IsTeam(actor) <==> Get(actor, "supervisor").Some?)
  }

  lemma MappedSame(x: Option<Json>, y: Option<Json>, f: Json -> Json, agree: (Json, Json) -> bool)
    requires x.Some? && y.Some? ==> (DictEq(f(x.value), f(y.value)) <==> agree(x.value, y.value))
    ensures Same(MapOption(x, f), MapOption(y, f)) <==> SameBy(x, y, agree)
  {
  }

  lemma SupervisorSame(x: Json, y: Json)
    requires WellFormed(x) && WellFormed(y) && x.Obj? && y.Obj?
    ensures Same(MapOption(Get(x, "supervisor"), ProjectMember), MapOption(Get(y, "supervisor"), ProjectMember))
       <==> SameBy(Get(x, "supervisor"), Get(y, "supervisor"), MembersAgree)
  {
    hide ProjectMember, MembersAgree, DictEq, Lookup;
    GetWellFormed(x, "supervisor");
    GetWellFormed(y, "supervisor");
    var a, b := Get(x, "supervisor"), Get(y, "supervisor");
    if a.Some? && b.Some? {
      MemberProjected(a.value, b.value);
    }
    MappedSame(a, b, ProjectMember, MembersAgree);
  }

  lemma MembersSame(x: Json, y: Json)
    requires WellFormed(x) && WellFormed(y) && x.Obj? && y.Obj?
    ensures Same(MapOption(Get(x, "members"), ProjectMembers), MapOption(Get(y, "members"), ProjectMembers))
       <==> SameBy(Get(x, "members"), Get(y, "members"), RostersAgree)
  {
    hide ProjectMembers, RostersAgree, DictEq, Lookup;
    GetWellFormed(x, "members");
    GetWellFormed(y, "members");
    var a, b := Get(x, "members"), Get(y, "members");
    if a.Some? && b.Some? {
      RosterProjected(a.value, b.value);
    }
    MappedSame(a, b, ProjectMembers, RostersAgree);
  }

  lemma ActorProjected(version: Version, x: Json, y: Json)
    requires WellFormed(x) && WellFormed(y) && WellKinded(x) && WellKinded(y)
    ensures DictEq(ProjectActor(version, x), ProjectActor(version, y)) <==> ActorsAgree(version, x, y)
  {
    hide DictEq, ProjectActor, Lookup, MembersAgree, RostersAgree, ProjectMember, ProjectMembers;
    ActorWellFormed(version, x);
    ActorWellFormed(version, y);
    ActorLookup(version, x, "supervisor");
    ActorLookup(version, y, "supervisor");
    var fs, gs := ProjectActor(version, x).fields, ProjectActor(version, y).fields;
    EqualByLookups(fs, gs);
    forall key
      ensures Lookup(fs, key) == ActorUnder(version, x, key) && Lookup(gs, key) == ActorUnder(version, y, key)
    {
      ActorLookup(version, x, key);
      ActorLookup(version, y, key);
    }
    if IsTeam(x) != IsTeam(y) {
      ActorsBySupervisor(version, x, y);
      assert !Same(Lookup(fs, "supervisor"), Lookup(gs, "supervisor"));
    } else {
      ActorsUnder(version, x, y);
      SameUnderBoth(fs, gs, version, x, y);
    }
  }

  ghost predicate SameActors(version: Version, x: Json, y: Json)
    requires x.Obj? && y.Obj?
  {
    forall key :: Same(ActorUnder(version, x, key), ActorUnder(version, y, key))
  }

  lemma SameUnderBoth(fs: seq<Field>, gs: seq<Field>, version: Version, x: Json, y: Json)
    requires x.Obj? && y.Obj?
    requires forall key ::
               Lookup(fs, key) == ActorUnder(version, x, key) && Lookup(gs, key) == ActorUnder(version, y, key)
    ensures SameLookups(fs, gs) <==> SameActors(version, x, y)
  {
    hide ActorUnder, Lookup, Same;
  }

  lemma ActorsBySupervisor(version: Version, x: Json, y: Json)
    requires WellKinded(x) && WellKinded(y) && IsTeam(x) != IsTeam(y)
    ensures !Same(ActorUnder(version, x, "supervisor"), ActorUnder(version, y, "supervisor"))
  {
    RosterKeysDiffer();
  }

  lemma ActorsUnder(version: Version, x: Json, y: Json)
    requires WellFormed(x) && WellFormed(y) && x.Obj? && y.Obj? && IsTeam(x) == IsTeam(y)
    ensures SameActors(version, x, y) <==> ActorsAgree(version, x, y)
  {
    hide Lookup, Same, MembersAgree, RostersAgree, ProjectMember, ProjectMembers;
    NoneSame();
    if IsTeam(x) {
      TeamsUnder(version, x, y);
    } else if SameActors(version, x, y) {
      forall key | key !in Dropped(version) ensures Same(Get(x, key), Get(y, key)) {
        assert Same(ActorUnder(version, x, key), ActorUnder(version, y, key));
      }
    }
  }

  lemma NoneSame()
    ensures Same(None, None)
  {
  }

  lemma TeamsUnder(version: Version, x: Json, y: Json)
    requires WellFormed(x) && WellFormed(y) && x.Obj? && y.Obj? && IsTeam(x) && IsTeam(y)
    ensures SameActors(version, x, y) <==> ActorsAgree(version, x, y)
  {
    hide Lookup, Same, MembersAgree, RostersAgree, ProjectMember, ProjectMembers, WellFormed, MapOption;
    NoneSame();
    RosterKeysDiffer();
    SupervisorSame(x, y);
    MembersSame(x, y);
    var outside := TEAM_ONLY_FIELDS + ROSTER + Dropped(version);
    forall key ensures key in outside <==>
                       key in TEAM_ONLY_FIELDS || key == "supervisor" || key == "members" || key in Dropped(version) {
      OutsideTeam(version, key);
    }
    if SameActors(version, x, y) {
      assert Same(ActorUnder(version, x, "supervisor"), ActorUnder(version, y, "supervisor"));
      assert Same(ActorUnder(version, x, "members"), ActorUnder(version, y, "members"));
      forall key | key !in outside ensures Same(Get(x, key), Get(y, key)) {
        assert Same(ActorUnder(version, x, key), ActorUnder(version, y, key));
      }
    }
  }

  lemma OutsideTeam(version: Version, key: string)
    ensures key in TEAM_ONLY_FIELDS + ROSTER + Dropped(version) <==>
            key in TEAM_ONLY_FIELDS || key == "supervisor" || key == "members" || key in Dropped(version)
  {
    assert ROSTER[0] == "supervisor" && ROSTER[1] == "members";
  }

  // ---------- whole payloads ----------

  /** What holds of every dumped payload: a known schema version and an actor of one of the two kinds. */
  predicate Dumped(v: Dict) {
    && (exists i :: 0 <= i < 5 && Get(v, "schema_version") == Some(Str(VERSIONS[i])))
    && Get(v, "actor").Some? && WellKinded(Get(v, "actor").value)
  }

  /** What a projected payload holds under a key. */
  function Under(version: Version, v: Dict, key: string): Option<Json> {
    if version == 5 then Get(v, key)
    else if version <= 2 && key == "limits" then Some(OnlyByteLimit(GetOr(v, "limits", Obj([]))))
    else if version == 1 && key == "tools" then None
    else if key == "actor" then MapOption(Get(v, "actor"), a => ProjectActor(version, a))
    else if key in LISTS then Some(ProjectedList(v.fields, key))
    else Get(v, key)
  }

  lemma PayloadKeysDiffer()
    ensures "actor" !in LISTS && "limits" !in LISTS && "actor" != "limits" && "schema_version" !in REWRITTEN
    ensures "tools" in LISTS && "skills" in LISTS && "knowledge_sources" in LISTS && "actor" != "tools"
    ensures "limits" != "tools"
  {
    assert |"schema_version"| == 14 && |"skills"| == 6 && |"knowledge_sources"| == 17 && |"tools"| == 5;
    assert |"actor"| == 5 && |"limits"| == 6 && "actor"[0] != "tools"[0] && "limits"[0] != "skills"[0];
    assert LISTS[0] == "skills" && LISTS[1] == "knowledge_sources" && LISTS[2] == "tools";
    assert REWRITTEN[3] == "actor" && REWRITTEN[4] == "limits";
  }

  lemma ProjectLookup(version: Version, v: Dict, key: string)
    ensures WellFormedFields(Project(version, v)) && Lookup(Project(version, v), key) == Under(version, v, key)
  {
    hide Touch, RemoveKey, SetKey, Lookup, ProjectActor, ProjectedList, ProjectLists, WellFormedFields, OnlyByteLimit;
    DictFields(v);
    if version < 5 {
      PayloadKeysDiffer();
      var lists := ProjectLists(v.fields);
      ListsWellFormed(v.fields);
      ListsLookup(v.fields, key);
      ListsLookup(v.fields, "actor");
      var project := a => ProjectActor(version, a);
      var actor := Touch(lists, "actor", project);
      TouchLookup(lists, "actor", project, key);
      if Lookup(lists, "actor").Some? && WellFormed(Lookup(lists, "actor").value) {
        ActorWellFormed(version, Lookup(lists, "actor").value);
      }
      TouchWellFormed(lists, "actor", project);
      ProjectTail(version, v, actor, key);
    }
  }

  lemma DictFields(v: Dict)
    ensures WellFormedFields(v.fields)
  {
  }

  lemma LimitWellFormed(v: Dict)
    ensures WellFormed(OnlyByteLimit(GetOr(v, "limits", Obj([]))))
  {
    GetWellFormed(v, "limits");
    var limits := GetOr(v, "limits", Obj([]));
    GetWellFormed(limits, BYTE_LIMIT);
    assert Keys([Field(BYTE_LIMIT, GetOr(limits, BYTE_LIMIT, Null))]) == [BYTE_LIMIT];
  }

  lemma ProjectTail(version: Version, v: Dict, actor: seq<Field>, key: string)
    requires version < 5 && WellFormedFields(actor)
    ensures var tools := if version == 1 then RemoveKey(actor, "tools") else actor;
            var all := if version <= 2 then SetKey(tools, "limits", OnlyByteLimit(GetOr(v, "limits", Obj([]))))
                       else tools;
            && WellFormedFields(all)
            && Lookup(all, key) ==
               if version <= 2 && key == "limits" then Some(OnlyByteLimit(GetOr(v, "limits", Obj([]))))
               else if version == 1 && key == "tools" then None
               else Lookup(actor, key)
  {
    hide RemoveKey, SetKey, Lookup, OnlyByteLimit, Keys, WellFormed;
    LimitWellFormed(v);
    RemoveWellFormed(actor, "tools");
    LookupRemoved(actor, "tools", key);
    var tools := if version == 1 then RemoveKey(actor, "tools") else actor;
    SetWellFormed(tools, "limits", OnlyByteLimit(GetOr(v, "limits", Obj([]))));
    LookupSet(tools, "limits", OnlyByteLimit(GetOr(v, "limits", Obj([]))), key);
  }

  ghost predicate SamePayloads(version: Version, v: Dict, w: Dict) {
    forall key :: Same(Under(version, v, key), Under(version, w, key))
  }

  lemma PayloadProjected(version: Version, v: Dict, w: Dict)
    ensures DictEq(Obj(Project(version, v)), Obj(Project(version, w))) <==> SamePayloads(version, v, w)
  {
    hide DictEq, Project, Lookup, Same, Under;
    forall key
      ensures Lookup(Project(version, v), key) == Under(version, v, key)
      ensures Lookup(Project(version, w), key) == Under(version, w, key)
    {
      ProjectLookup(version, v, key);
      ProjectLookup(version, w, key);
    }
    ProjectLookup(version, v, "");
    ProjectLookup(version, w, "");
    EqualByLookups(Project(version, v), Project(version, w));
  }

  lemma LimitsSame(v: Dict, w: Dict)
    ensures DictEq(OnlyByteLimit(GetOr(v, "limits", Obj([]))), OnlyByteLimit(GetOr(w, "limits", Obj([]))))
       <==> DictEq(ByteLimit(v), ByteLimit(w))
  {
    hide DictEq, Lookup;
    OneEqual(BYTE_LIMIT, ByteLimit(v), ByteLimit(w));
  }

  lemma ActorSame(version: Version, v: Dict, w: Dict)
    requires Dumped(v) && Dumped(w)
    ensures Same(MapOption(Get(v, "actor"), a => ProjectActor(version, a)),
                 MapOption(Get(w, "actor"), a => ProjectActor(version, a)))
       <==> SameBy(Get(v, "actor"), Get(w, "actor"), (x, y) => ActorsAgree(version, x, y))
  {
    hide DictEq, ProjectActor, ActorsAgree, Lookup;
    GetWellFormed(v, "actor");
    GetWellFormed(w, "actor");
    ActorProjected(version, Get(v, "actor").value, Get(w, "actor").value);
  }

  /** The keys a version rewrites, one by one. */
  ghost predicate RewrittenSame(version: Version, v: Dict, w: Dict) {
    && Same(Under(version, v, "skills"), Under(version, w, "skills"))
    && Same(Under(version, v, "knowledge_sources"), Under(version, w, "knowledge_sources"))
    && Same(Under(version, v, "tools"), Under(version, w, "tools"))
    && Same(Under(version, v, "actor"), Under(version, w, "actor"))
    && Same(Under(version, v, "limits"), Under(version, w, "limits"))
  }

  lemma RewrittenKeys(key: string)
    ensures key in REWRITTEN <==>
            key == "skills" || key == "knowledge_sources" || key == "tools" || key == "actor" || key == "limits"
    ensures key in LISTS <==> key == "skills" || key == "knowledge_sources" || key == "tools"
  {
    assert REWRITTEN[0] == LISTS[0] == "skills" && REWRITTEN[1] == LISTS[1] == "knowledge_sources";
    assert REWRITTEN[2] == LISTS[2] == "tools" && REWRITTEN[3] == "actor" && REWRITTEN[4] == "limits";
  }

  lemma SplitKeys(version: Version, v: Dict, w: Dict)
    requires version < 5
    ensures SamePayloads(version, v, w) <==> RewrittenSame(version, v, w) && SameOutside(v.fields, w.fields, REWRITTEN)
  {
    hide Same, Lookup, ProjectActor, ProjectedList, OnlyByteLimit;
    forall key ensures key !in REWRITTEN ==> Under(version, v, key) == Lookup(v.fields, key)
      ensures key !in REWRITTEN ==> Under(version, w, key) == Lookup(w.fields, key)
    {
      RewrittenKeys(key);
    }
    if SamePayloads(version, v, w) {
      forall key | key !in REWRITTEN ensures Same(Lookup(v.fields, key), Lookup(w.fields, key)) {
        assert Same(Under(version, v, key), Under(version, w, key));
      }
    }
    if RewrittenSame(version, v, w) && SameOutside(v.fields, w.fields, REWRITTEN) {
      forall key ensures Same(Under(version, v, key), Under(version, w, key)) {
        RewrittenKeys(key);
      }
    }
  }

  lemma RewrittenAgree(version: Version, v: Dict, w: Dict)
    requires Dumped(v) && Dumped(w) && version < 5
    ensures RewrittenSame(version, v, w) && SameOutside(v.fields, w.fields, REWRITTEN) <==> Agree(version, v, w)
  {
    hide DictEq, Lookup, ProjectActor, ProjectedList, OnlyByteLimit, SameOutside, Pairwise, ActorsAgree, ByteLimit,
         SameBy, MapOption;
    PayloadKeysDiffer();
    SkillsEqual(v.fields, w.fields);
    KnowledgeEqual(v.fields, w.fields);
    ToolsEqual(v.fields, w.fields);
    ActorSame(version, v, w);
    LimitsSame(v, w);
  }

  lemma PayloadsUnder(version: Version, v: Dict, w: Dict)
    requires Dumped(v) && Dumped(w)
    ensures SamePayloads(version, v, w) <==> Agree(version, v, w)
  {
    hide Agree, Under, Dumped, DictEq;
    if version == 5 {
      LatestUnder(v, w);
    } else {
      SplitKeys(version, v, w);
      RewrittenAgree(version, v, w);
    }
  }

  lemma LatestUnder(v: Dict, w: Dict)
    ensures SamePayloads(5, v, w) <==> Agree(5, v, w)
  {
    hide DictEq, Lookup, Same;
    DictFields(v);
    DictFields(w);
    EqualByLookups(v.fields, w.fields);
    assert forall key :: Under(5, v, key) == Lookup(v.fields, key) && Under(5, w, key) == Lookup(w.fields, key);
  }

  lemma VersionUnder(version: Version, v: Dict)
    ensures Under(version, v, "schema_version") == Get(v, "schema_version")
  {
    PayloadKeysDiffer();
    RewrittenKeys("schema_version");
  }

  lemma VersionShows(v: Dict, w: Dict)
    requires Dumped(v) && Dumped(w) && VersionOf(v) != VersionOf(w)
    ensures !Same(Get(v, "schema_version"), Get(w, "schema_version"))
  {
    hide Lookup, WellKinded;
    var a, b := VersionOf(v) - 1, VersionOf(w) - 1;
    assert Get(v, "schema_version") == Some(Str(VERSIONS[a])) && Get(w, "schema_version") == Some(Str(VERSIONS[b]));
    assert VERSIONS[a] != VERSIONS[b] by {
      assert forall i, j :: 0 <= i < j < 5 ==> VERSIONS[i][0] != VERSIONS[j][0];
    }
  }

  lemma VersionsDiffer(v: Dict, w: Dict)
    requires Dumped(v) && Dumped(w) && VersionOf(v) != VersionOf(w)
    ensures !DictEq(Obj(Project(VersionOf(v), v)), Obj(Project(VersionOf(w), w)))
  {
    hide DictEq, Project, Lookup, Same, Under, Dumped, VersionOf;
    var fs, gs := Project(VersionOf(v), v), Project(VersionOf(w), w);
    ProjectLookup(VersionOf(v), v, "schema_version");
    ProjectLookup(VersionOf(w), w, "schema_version");
    VersionUnder(VersionOf(v), v);
    VersionUnder(VersionOf(w), w);
    VersionShows(v, w);
    EqualByLookups(fs, gs);
    assert !Same(Lookup(fs, "schema_version"), Lookup(gs, "schema_version"));
  }

  /** The version is the one named, and the first one if none of the five is. */
  lemma VersionIs(v: Json)
    ensures var named := Get(v, "schema_version");
            && (VersionOf(v) == 2 <==> named == Some(Str("2"))) && (VersionOf(v) == 3 <==> named == Some(Str("3")))
            && (VersionOf(v) == 4 <==> named == Some(Str("4"))) && (VersionOf(v) == 5 <==> named == Some(Str("5")))
  {
    hide Get;
    assert VERSIONS[0] == "1" && VERSIONS[1] == "2" && VERSIONS[2] == "3" && VERSIONS[3] == "4" && VERSIONS[4] == "5";
    assert "1"[0] == '1' && "2"[0] == '2' && "3"[0] == '3' && "4"[0] == '4' && "5"[0] == '5';
  }

  /** Two payloads have the same bytes exactly when their versions are one and they agree on what it froze. */
  lemma SameBytesExactlyWhen(v: Dict, w: Dict)
    requires Dumped(v) && Dumped(w)
    ensures SnapshotBytes(v) == SnapshotBytes(w) <==> VersionOf(v) == VersionOf(w) && Agree(VersionOf(v), v, w)
  {
    hide DictEq, Project, Lookup, Under, Dumped, VersionOf, Agree, Bytes, SamePayloads;
    ProjectLookup(VersionOf(v), v, "");
    ProjectLookup(VersionOf(w), w, "");
    WellFormedObject(Project(VersionOf(v), v));
    WellFormedObject(Project(VersionOf(w), w));
    BytesDecideEquality(Obj(Project(VersionOf(v), v)), Obj(Project(VersionOf(w), w)));
    if VersionOf(v) != VersionOf(w) {
      VersionsDiffer(v, w);
    } else {
      PayloadProjected(VersionOf(v), v, w);
      PayloadsUnder(VersionOf(v), v, w);
    }
  }

  // ---------- verifying a digest ----------

  /** `verify_snapshot_digest` */
  predicate Verifies(h: Hash, v: Dict, digest: string) {
    SnapshotDigest(h, v) == digest
  }

  /**
   A stored digest vouches for a payload exactly when the payload agrees with the one it was taken of, unless the two
   collide under the hash.
   */
  lemma VerifiesExactlyWhen(h: Hash, stored: Dict, v: Dict)
    requires Dumped(stored) && Dumped(v)
    requires h(SnapshotBytes(stored)) == h(SnapshotBytes(v)) ==> SnapshotBytes(stored) == SnapshotBytes(v)
    ensures Verifies(h, v, SnapshotDigest(h, stored)) <==>
            VersionOf(stored) == VersionOf(v) && Agree(VersionOf(stored), stored, v)
  {
    hide SnapshotBytes, VersionOf, Agree, Dumped;
    SameBytesExactlyWhen(stored, v);
  }

  /** A payload with one entry of its skills changed. */
  function WithSkill(v: Dict, i: nat, skill: Json): (r: Dict)
    requires i < |Items(Get(v, "skills"))| && WellFormed(skill)
  {
    var skills := Items(Get(v, "skills"));
    DictFields(v);
    ItemsOfWellFormed(v.fields, "skills");
    SetWellFormed(v.fields, "skills", Arr(skills[i := skill]));
    WellFormedObject(SetKey(v.fields, "skills", Arr(skills[i := skill])));
    Obj(SetKey(v.fields, "skills", Arr(skills[i := skill])))
  }

  lemma SkillsReflexive(x: Json)
    ensures SkillsAgree(x, x)
  {
    DictEqReflexive(GetOr(x, "name", Str("")));
    forall i | 0 <= i < |RESOURCE_FIELDS|
      ensures DictEq(GetOr(x, RESOURCE_FIELDS[i], Null), GetOr(x, RESOURCE_FIELDS[i], Null))
    {
      DictEqReflexive(GetOr(x, RESOURCE_FIELDS[i], Null));
    }
  }

  lemma SameReflexive(x: Option<Json>)
    ensures Same(x, x)
  {
    if x.Some? {
      DictEqReflexive(x.value);
    }
  }

  lemma WithSkillUnder(version: Version, v: Dict, i: nat, skill: Json, key: string)
    requires i < |Items(Get(v, "skills"))| && WellFormed(skill) && version < 5 && key != "skills"
    ensures Under(version, WithSkill(v, i, skill), key) == Under(version, v, key)
  {
    hide ProjectActor, OnlyByteLimit;
    var skills := Arr(Items(Get(v, "skills"))[i := skill]);
    LookupSet(v.fields, "skills", skills, key);
    LookupSet(v.fields, "skills", skills, "limits");
    LookupSet(v.fields, "skills", skills, "actor");
    PayloadKeysDiffer();
    assert |"limits"| == |"skills"| && "limits"[0] != "skills"[0] && |"actor"| != |"skills"|;
  }

  lemma WithSkillList(v: Dict, i: nat, skill: Json)
    requires i < |Items(Get(v, "skills"))| && WellFormed(skill)
    ensures var w := WithSkill(v, i, skill);
            (Pairwise(Items(Get(v, "skills")), Items(Get(w, "skills")), SkillsAgree)
             <==> SkillsAgree(Items(Get(v, "skills"))[i], skill))
  {
    hide SkillsAgree;
    var skills := Items(Get(v, "skills"));
    LookupSet(v.fields, "skills", Arr(skills[i := skill]), "skills");
    forall k | 0 <= k < |skills| ensures SkillsAgree(skills[k], skills[k]) {
      SkillsReflexive(skills[k]);
    }
    if Pairwise(skills, skills[i := skill], SkillsAgree) {
      assert SkillsAgree(skills[i], skills[i := skill][i]);
    }
  }

  /** Up to version 4 a changed skill is noticed exactly when its name or its resources changed. */
  lemma SkillNoticedExactlyWhen(v: Dict, i: nat, skill: Json)
    requires VersionOf(v) < 5 && i < |Items(Get(v, "skills"))| && WellFormed(skill)
    ensures var w := WithSkill(v, i, skill);
            SnapshotBytes(v) != SnapshotBytes(w) <==> !SkillsAgree(Items(Get(v, "skills"))[i], skill)
  {
    hide DictEq, Project, Lookup, Under, VersionOf, Bytes, SkillsAgree, WithSkill, Items, ProjectedList;
    var version, w := VersionOf(v), WithSkill(v, i, skill);
    WithSkillVersion(v, i, skill);
    ProjectLookup(version, v, "");
    ProjectLookup(version, w, "");
    WellFormedObject(Project(version, v));
    WellFormedObject(Project(version, w));
    BytesDecideEquality(Obj(Project(version, v)), Obj(Project(version, w)));
    PayloadProjected(version, v, w);
    forall key | key != "skills" ensures Same(Under(version, v, key), Under(version, w, key)) {
      WithSkillUnder(version, v, i, skill, key);
      SameReflexive(Under(version, v, key));
    }
    SkillsUnder(version, v, w);
    WithSkillList(v, i, skill);
    assert SamePayloads(version, v, w) <==> Same(Under(version, v, "skills"), Under(version, w, "skills"));
  }

  lemma WithSkillVersion(v: Dict, i: nat, skill: Json)
    requires i < |Items(Get(v, "skills"))| && WellFormed(skill)
    ensures VersionOf(WithSkill(v, i, skill)) == VersionOf(v)
  {
    LookupSet(v.fields, "skills", Arr(Items(Get(v, "skills"))[i := skill]), "schema_version");
    assert |"skills"| != |"schema_version"|;
  }

  lemma SkillsUnder(version: Version, v: Dict, w: Dict)
    requires version < 5
    ensures Same(Under(version, v, "skills"), Under(version, w, "skills"))
       <==> Pairwise(Items(Get(v, "skills")), Items(Get(w, "skills")), SkillsAgree)
  {
    hide DictEq, Lookup, Items, SkillsAgree, ProjectedList;
    PayloadKeysDiffer();
    assert |"limits"| == |"skills"| && "limits"[0] != "skills"[0] && |"actor"| != |"skills"| && |"skills"| != |"tools"|;
    SkillsEqual(v.fields, w.fields);
  }
}
