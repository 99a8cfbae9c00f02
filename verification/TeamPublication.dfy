/**
 Why a version published by the service is the one its digest was taken of, and exactly when it can be run.

 The digest is taken of the trusted dictionary; the repository then stores its own normal form of that
 dictionary, with its keys in another order.
 */
module TeamPublication {
  import opened Outcomes
  import opened Json
  import opened Canonical
  import opened PyDict
  import opened TeamDefinition
  import opened TeamService

  // ---------- the trusted dictionary and its normal form ----------

  lemma {:induction false} SetKeyMissing(fields: seq<Field>, key: string, value: Json)
    requires forall i :: 0 <= i < |fields| ==> fields[i].key != key
    ensures SetKey(fields, key, value) == fields + [Field(key, value)]
  {
    if fields != [] {
      SetKeyMissing(fields[1..], key, value);
    }
  }

  lemma {:induction false} SetKeyAt(fields: seq<Field>, i: nat, value: Json)
    requires Distinct(Keys(fields)) && i < |fields|
    ensures SetKey(fields, fields[i].key, value) == fields[i := Field(fields[i].key, value)]
  {
    assert Keys(fields)[0] == fields[0].key && Keys(fields)[i] == fields[i].key;
    if i > 0 {
      assert Keys(fields[1..]) == Keys(fields)[1..];
      SetKeyAt(fields[1..], i - 1, value);
    }
  }

  function WithCapture(h: Hash, m: Member, c: Capture): Member {
    m.(captured := Some(Captured(Digest(h, c.agent), c.agent)))
  }

  /** Setting two keys that are there replaces their values. */
  lemma SetBoth(fs: seq<Field>, i: nat, j: nat, x: Json, y: Json)
    requires Distinct(Keys(fs)) && i < |fs| && j < |fs| && i != j
    ensures SetKey(SetKey(fs, fs[i].key, x), fs[j].key, y)
         == fs[i := Field(fs[i].key, x)][j := Field(fs[j].key, y)]
  {
    hide SetKey;
    SetKeyAt(fs, i, x);
    var first := fs[i := Field(fs[i].key, x)];
    assert Keys(first) == Keys(fs);
    SetKeyAt(first, j, y);
  }

  /** Setting two keys where neither is there appends them in that order. */
  lemma AddBoth(fs: seq<Field>, k: string, x: Json, l: string, y: Json)
    requires k != l && forall i :: 0 <= i < |fs| ==> fs[i].key != k && fs[i].key != l
    ensures SetKey(SetKey(fs, k, x), l, y) == fs + [Field(k, x), Field(l, y)]
  {
    hide SetKey;
    SetKeyMissing(fs, k, x);
    SetKeyMissing(fs + [Field(k, x)], l, y);
    assert fs + [Field(k, x)] + [Field(l, y)] == fs + [Field(k, x), Field(l, y)];
  }

  /** A stored member is six fields that do not depend on its capture, then the capture. */
  lemma StoredMemberFields(m: Member, c: Captured)
    ensures var plain := MemberJson(m.(captured := None)).fields;
            && |plain| == 6
            && (forall i :: 0 <= i < 6 ==>
                  plain[i].key != "agent_definition" && plain[i].key != "agent_definition_digest")
            && MemberJson(m.(captured := Some(c))).fields ==
               plain + [Field("agent_definition_digest", Str(c.digest)), Field("agent_definition", c.agent)]
  {
    hide TextArray;
  }

  /** The fields of a trusted member: those of the normal member, but a new capture is written agent first. */
  lemma TrustedMemberFields(h: Hash, m: Member, c: Capture)
    ensures var stored := MemberJson(WithCapture(h, m, c)).fields;
            && |stored| == 8
            && TrustedMemberJson(h, m, c).fields ==
               if m.captured.Some? then stored else stored[..6] + [stored[7], stored[6]]
  {
    hide Digest, SetKey, Keys, TextArray;
    var digest := Digest(h, c.agent);
    StoredMemberFields(m, Captured(digest, c.agent));
    if m.captured.Some? {
      StoredMemberFields(m, m.captured.value);
      assert m.(captured := Some(m.captured.value)) == m;
      MemberJsonGets(m);
      SetBoth(MemberJson(m).fields, 7, 6, c.agent, Str(digest));
    } else {
      assert m.(captured := None) == m;
      assert |"agent_definition"| != |"agent_definition_digest"|;
      AddBoth(MemberJson(m).fields, "agent_definition", c.agent, "agent_definition_digest", Str(digest));
    }
  }

  lemma StoredMemberWellFormed(m: Member)
    requires m.captured.Some? ==> WellFormed(m.captured.value.agent)
    ensures WellFormed(MemberJson(m))
  {
    MemberJsonGets(m);
    var fs := MemberJson(m).fields;
    forall i | 0 <= i < |fs| ensures WellFormed(fs[i].value) {
      TextArrayWellFormed(m.allow.tools);
      TextArrayWellFormed(m.allow.skills);
      TextArrayWellFormed(m.allow.knowledge);
    }
    WellFormedObject(fs);
  }

  lemma SwapLastTwo(fs: seq<Field>)
    requires |fs| == 8 && WellFormedFields(fs)
    ensures var gs := fs[..6] + [fs[7], fs[6]];
            WellFormedFields(gs) && forall f :: f in fs <==> f in gs
  {
    var gs := fs[..6] + [fs[7], fs[6]];
    assert fs == fs[..6] + [fs[6], fs[7]];
    assert Keys(gs) == Keys(fs)[..6] + [Keys(fs)[7], Keys(fs)[6]];
  }

  lemma TrustedMemberEqual(h: Hash, m: Member, c: Capture)
    ensures DictEq(TrustedMemberJson(h, m, c), MemberJson(WithCapture(h, m, c)))
    ensures WellFormed(TrustedMemberJson(h, m, c)) && WellFormed(MemberJson(WithCapture(h, m, c)))
  {
    hide Digest, TextArray, SetKey, WellFormedFields;
    var trusted := TrustedMemberJson(h, m, c).fields;
    var stored := MemberJson(WithCapture(h, m, c)).fields;
    StoredMemberWellFormed(WithCapture(h, m, c));
    TrustedMemberFields(h, m, c);
    if m.captured.None? {
      SwapLastTwo(stored);
    }
    SameFieldsEqual(trusted, stored);
    WellFormedObject(trusted);
  }

  /** The trusted dictionary equals the one the repository stores for it, so the two have one digest. */
  lemma TrustedEqualsStored(h: Hash, name: string, description: string, d: Definition, cs: seq<Capture>)
    requires |cs| == |Everyone(d)|
    ensures Digest(h, TrustedJson(h, name, description, d, cs))
         == Digest(h, DefinitionJson(TrustedRecord(h, name, description, d, cs)))
  {
    TrustedDictEqual(h, name, description, d, cs);
    BytesDecideEquality(TrustedJson(h, name, description, d, cs),
                        DefinitionJson(TrustedRecord(h, name, description, d, cs)));
  }

  lemma TrustedDictEqual(h: Hash, name: string, description: string, d: Definition, cs: seq<Capture>)
    requires |cs| == |Everyone(d)|
    ensures DictEq(TrustedJson(h, name, description, d, cs),
                   DefinitionJson(TrustedRecord(h, name, description, d, cs)))
    ensures WellFormed(TrustedJson(h, name, description, d, cs))
    ensures WellFormed(DefinitionJson(TrustedRecord(h, name, description, d, cs)))
  {
    var record := TrustedRecord(h, name, description, d, cs);
    var ms := TrustedMembersJson(h, Everyone(d), cs);
    RosterEqual(h, name, description, d, cs);
    StoredLabels(record, name, description);
    LabelledParts(name, description, ms[0], Arr(ms[1..]), MemberJson(record.supervisor), MembersJson(record.members),
                  d.allow, d.settings);
  }

  /** The two dictionaries, written out from the parts they share. */
  lemma LabelledParts(name: string, description: string, x: Json, xs: Json, y: Json, ys: Json, a: Whitelists,
                      s: Settings)
    requires FieldsEq(RosterFields(x, xs), RosterFields(y, ys))
    requires WellFormedFields(RosterFields(x, xs)) && WellFormedFields(RosterFields(y, ys))
    ensures var trusted := LabelFields(name, description) + (RosterFields(x, xs) + LimitFields(a, s));
            var stored := (RosterFields(y, ys) + LimitFields(a, s)) + LabelFields(name, description);
            DictEq(Obj(trusted), Obj(stored)) && WellFormed(Obj(trusted)) && WellFormed(Obj(stored))
  {
    LimitsWellFormed(a, s);
    RosterKeys(x, xs);
    RosterKeys(y, ys);
    LabelKeys(name, description);
    LabelledEqual(LabelFields(name, description), RosterFields(x, xs), RosterFields(y, ys), LimitFields(a, s));
  }

  lemma RosterKeys(x: Json, xs: Json)
    ensures KeysWithin(RosterFields(x, xs), ["supervisor", "members"])
  {
  }

  lemma LabelKeys(name: string, description: string)
    ensures WellFormedFields(LabelFields(name, description))
    ensures KeysWithin(LabelFields(name, description), ["name", "description"])
  {
  }

  lemma StoredLabels(d: Definition, name: string, description: string)
    requires d.name == Some(name) && d.description == Some(description)
    ensures DefinitionJson(d) == Obj(FixedFields(d) + LabelFields(name, description))
  {
    assert FixedFields(d) + [Field("name", Str(name))] + [Field("description", Str(description))]
        == FixedFields(d) + LabelFields(name, description);
  }

  predicate KeysWithin(fs: seq<Field>, keys: seq<string>) {
    forall i :: 0 <= i < |fs| ==> fs[i].key in keys
  }

  lemma LabelledEqual(labels: seq<Field>, roster: seq<Field>, roster': seq<Field>, limits: seq<Field>)
    requires FieldsEq(roster, roster')
    requires WellFormedFields(labels) && KeysWithin(labels, ["name", "description"])
    requires WellFormedFields(roster) && KeysWithin(roster, ["supervisor", "members"])
    requires WellFormedFields(roster') && KeysWithin(roster', ["supervisor", "members"])
    requires WellFormedFields(limits)
    requires forall i :: 0 <= i < |limits| ==> limits[i].key !in ["name", "description", "supervisor", "members"]
    ensures DictEq(Obj(labels + (roster + limits)), Obj((roster' + limits) + labels))
    ensures WellFormed(Obj(labels + (roster + limits))) && WellFormed(Obj((roster' + limits) + labels))
  {
    FieldsEqReflexive(limits);
    FieldsEqReflexive(labels);
    FieldsEqAppend(roster, roster', limits, limits);
    DictEqSwapped(labels, labels, roster + limits, roster' + limits);
    LabelledWellFormed(labels, roster, limits);
    LabelledWellFormed(labels, roster', limits);
  }

  lemma LabelledWellFormed(labels: seq<Field>, roster: seq<Field>, limits: seq<Field>)
    requires WellFormedFields(labels) && KeysWithin(labels, ["name", "description"])
    requires WellFormedFields(roster) && KeysWithin(roster, ["supervisor", "members"])
    requires WellFormedFields(limits)
    requires forall i :: 0 <= i < |limits| ==> limits[i].key !in ["name", "description", "supervisor", "members"]
    ensures WellFormed(Obj(labels + (roster + limits))) && WellFormed(Obj((roster + limits) + labels))
  {
    WellFormedAppend(roster, limits);
    WellFormedAppend(labels, roster + limits);
    WellFormedObject(labels + (roster + limits));
    WellFormedObject((roster + limits) + labels);
  }

  lemma LimitsWellFormed(a: Whitelists, s: Settings)
    ensures WellFormedFields(LimitFields(a, s))
    ensures forall i :: 0 <= i < |LimitFields(a, s)| ==>
              LimitFields(a, s)[i].key !in ["name", "description", "supervisor", "members"]
  {
    assert Keys(LimitFields(a, s)) ==
      ["tool_ids", "skill_names", "knowledge_source_ids", "max_steps", "max_parallel_members", "timeout_seconds",
       "failure_strategy", "approval_policy_id"];
    TextArrayWellFormed(a.tools);
    TextArrayWellFormed(a.skills);
    TextArrayWellFormed(a.knowledge);
  }

  lemma RosterEqual(h: Hash, name: string, description: string, d: Definition, cs: seq<Capture>)
    requires |cs| == |Everyone(d)|
    ensures var record := TrustedRecord(h, name, description, d, cs);
            var ms := TrustedMembersJson(h, Everyone(d), cs);
            var roster := RosterFields(ms[0], Arr(ms[1..]));
            var roster' := RosterFields(MemberJson(record.supervisor), MembersJson(record.members));
            FieldsEq(roster, roster') && WellFormedFields(roster) && WellFormedFields(roster')
  {
    var record := TrustedRecord(h, name, description, d, cs);
    var ms := TrustedMembersJson(h, Everyone(d), cs);
    var all := WithCaptures(h, Everyone(d), cs);
    var stored := seq(|all|, i requires 0 <= i < |all| => MemberJson(all[i]));
    forall i | 0 <= i < |ms|
      ensures DictEq(ms[i], stored[i]) && WellFormed(ms[i]) && WellFormed(stored[i])
    {
      TrustedMemberEqual(h, Everyone(d)[i], cs[i]);
    }
    assert MembersJson(record.members).items == stored[1..];
    RosterFieldsEqual(ms, stored);
  }

  lemma RosterFieldsEqual(xs: seq<Json>, ys: seq<Json>)
    requires |xs| == |ys| > 0
    requires forall i :: 0 <= i < |xs| ==> DictEq(xs[i], ys[i]) && WellFormed(xs[i]) && WellFormed(ys[i])
    ensures FieldsEq(RosterFields(xs[0], Arr(xs[1..])), RosterFields(ys[0], Arr(ys[1..])))
    ensures WellFormedFields(RosterFields(xs[0], Arr(xs[1..])))
    ensures WellFormedFields(RosterFields(ys[0], Arr(ys[1..])))
  {
    assert DictEq(Arr(xs[1..]), Arr(ys[1..]));
    assert WellFormed(Arr(xs[1..])) && WellFormed(Arr(ys[1..]));
  }

  // ---------- the repository accepts the trusted dictionary as it is ----------

  /** SHA-256 digests are 64 hexadecimal digits. */
  ghost predicate HexDigests(h: Hash) {
    forall bytes :: |h(bytes)| == DIGEST_LENGTH
  }

  lemma NormalizeTrustedMember(h: Hash, m: Member, c: Capture, role: string)
    requires NormalMember(m, role) && HexDigests(h)
    ensures NormalizeMember(TrustedMemberJson(h, m, c), role) == Ok(WithCapture(h, m, c))
  {
    TrustedMemberEqual(h, m, c);
    TrustedMemberLooksUp(h, m, c);
    NormalizeStoredMember(WithCapture(h, m, c), role);
    NormalizeByReads(TrustedMemberJson(h, m, c), MemberJson(WithCapture(h, m, c)), role);
  }

  const MEMBER_READS: seq<string> :=
    ["actor_type", "agent_definition_digest", "agent_version_id", "agent_definition", "agent_id", "responsibility",
     "tool_ids", "skill_names", "knowledge_source_ids"]

  /** The two dictionaries hold the same under every key that normalising a member reads. */
  predicate SameReads(v: Json, w: Json) {
    v.Obj? && w.Obj? && forall i :: 0 <= i < |MEMBER_READS| ==> Get(v, MEMBER_READS[i]) == Get(w, MEMBER_READS[i])
  }

  lemma TrustedMemberLooksUp(h: Hash, m: Member, c: Capture)
    requires WellFormed(TrustedMemberJson(h, m, c)) && WellFormed(MemberJson(WithCapture(h, m, c)))
    ensures SameReads(TrustedMemberJson(h, m, c), MemberJson(WithCapture(h, m, c)))
  {
    var stored := MemberJson(WithCapture(h, m, c)).fields;
    TrustedMemberFields(h, m, c);
    if m.captured.None? {
      LookupSwapped(stored);
    }
  }

  lemma LookupSwapped(fs: seq<Field>)
    requires |fs| == 8 && WellFormedFields(fs)
    ensures SameReads(Obj(fs), Obj(fs[..6] + [fs[7], fs[6]]))
    ensures SameReads(Obj(fs[..6] + [fs[7], fs[6]]), Obj(fs))
  {
    SwapLastTwo(fs);
    forall i | 0 <= i < |MEMBER_READS|
      ensures Lookup(fs, MEMBER_READS[i]) == Lookup(fs[..6] + [fs[7], fs[6]], MEMBER_READS[i])
    {
      LookupPermuted(fs, fs[..6] + [fs[7], fs[6]], MEMBER_READS[i]);
    }
  }

  lemma NormalizeByReads(v: Json, w: Json, role: string)
    requires SameReads(v, w)
    ensures NormalizeMember(v, role) == NormalizeMember(w, role)
  {
    assert MEMBER_READS[0] == "actor_type" && MEMBER_READS[1] == "agent_definition_digest";
    assert MEMBER_READS[2] == "agent_version_id" && MEMBER_READS[3] == "agent_definition";
    assert MEMBER_READS[4] == "agent_id" && MEMBER_READS[5] == "responsibility";
    WhitelistsByReads(v, w);
  }

  lemma WhitelistsByReads(v: Json, w: Json)
    requires SameReads(v, w)
    ensures ReadWhitelists(v) == ReadWhitelists(w)
  {
    assert MEMBER_READS[6] == "tool_ids" && MEMBER_READS[7] == "skill_names";
    assert MEMBER_READS[8] == "knowledge_source_ids";
  }

  lemma {:induction false} NormalizeEach(items: seq<Json>, ms: seq<Member>)
    requires |items| == |ms|
    requires forall i :: 0 <= i < |ms| ==> NormalizeMember(items[i], MEMBER) == Ok(ms[i])
    ensures NormalizeMembers(items) == Ok(ms)
  {
    if items != [] {
      NormalizeEach(items[1..], ms[1..]);
      assert [ms[0]] + ms[1..] == ms;
    }
  }

  lemma ReadRosterFrom(v: Json, items: seq<Json>, ms: seq<Member>)
    requires |items| == |ms| >= 2 && Distinct(AgentIds(ms))
    requires Get(v, "supervisor") == Some(items[0]) && Get(v, "members") == Some(Arr(items[1..]))
    requires NormalizeMember(items[0], SUPERVISOR) == Ok(ms[0])
    requires forall i :: 1 <= i < |ms| ==> NormalizeMember(items[i], MEMBER) == Ok(ms[i])
    ensures ReadRoster(v) == Ok(ms)
  {
    NormalizeEach(items[1..], ms[1..]);
    assert [ms[0]] + ms[1..] == ms;
  }

  lemma ReadTrustedRoster(h: Hash, v: Json, ms: seq<Member>, cs: seq<Capture>)
    requires |ms| == |cs| && HexDigests(h) && NormalRoster(ms)
    requires Get(v, "supervisor") == Some(TrustedMembersJson(h, ms, cs)[0])
    requires Get(v, "members") == Some(Arr(TrustedMembersJson(h, ms, cs)[1..]))
    ensures ReadRoster(v) == Ok(WithCaptures(h, ms, cs))
  {
    var items, all := TrustedMembersJson(h, ms, cs), WithCaptures(h, ms, cs);
    forall i | 0 <= i < |ms|
      ensures NormalizeMember(items[i], if i == 0 then SUPERVISOR else MEMBER) == Ok(all[i])
    {
      NormalizeTrustedMember(h, ms[i], cs[i], if i == 0 then SUPERVISOR else MEMBER);
    }
    assert AgentIds(all) == AgentIds(ms);
    ReadRosterFrom(v, items, all);
  }

  lemma TrustedGet(h: Hash, name: string, description: string, d: Definition, cs: seq<Capture>, key: string)
    requires |cs| == |Everyone(d)|
    ensures var ms := TrustedMembersJson(h, Everyone(d), cs);
            Get(TrustedJson(h, name, description, d, cs), key) ==
            if Lookup(LabelFields(name, description), key).Some? then Lookup(LabelFields(name, description), key)
            else Lookup(RosterFields(ms[0], Arr(ms[1..])) + LimitFields(d.allow, d.settings), key)
  {
    var ms := TrustedMembersJson(h, Everyone(d), cs);
    LookupAppend(LabelFields(name, description), RosterFields(ms[0], Arr(ms[1..])) + LimitFields(d.allow, d.settings),
                 key);
  }

  lemma LabelGets(name: string, description: string)
    ensures Lookup(LabelFields(name, description), "name") == Some(Str(name))
    ensures Lookup(LabelFields(name, description), "description") == Some(Str(description))
    ensures forall key :: key in FIXED_KEYS ==> Lookup(LabelFields(name, description), key) == None
  {
    var fs := LabelFields(name, description);
    assert fs[0].key == "name" && fs[1..][0].key == "description";
    forall key | key in FIXED_KEYS ensures Lookup(fs, key) == None {
      LookupMissing(fs, key);
    }
  }

  lemma TrustedGets(h: Hash, name: string, description: string, d: Definition, cs: seq<Capture>)
    requires |cs| == |Everyone(d)|
    ensures var v := TrustedJson(h, name, description, d, cs);
            var ms := TrustedMembersJson(h, Everyone(d), cs);
            && Get(v, "name") == Some(Str(name))
            && Get(v, "description") == Some(Str(description))
            && var fixed := RosterFields(ms[0], Arr(ms[1..])) + LimitFields(d.allow, d.settings);
               forall i :: 0 <= i < 10 ==> Get(v, FIXED_KEYS[i]) == Lookup(fixed, FIXED_KEYS[i])
  {
    LabelGets(name, description);
    TrustedGet(h, name, description, d, cs, "name");
    TrustedGet(h, name, description, d, cs, "description");
    forall i | 0 <= i < 10 {
      TrustedGet(h, name, description, d, cs, FIXED_KEYS[i]);
    }
  }

  lemma ReadBack(v: Json, x: Json, xs: Json, a: Whitelists, s: Settings)
    requires NormalWhitelists(a) && NormalSettings(s)
    requires forall i :: 0 <= i < 10 ==>
               Get(v, FIXED_KEYS[i]) == Lookup(RosterFields(x, xs) + LimitFields(a, s), FIXED_KEYS[i])
    ensures Get(v, "supervisor") == Some(x) && Get(v, "members") == Some(xs)
    ensures ReadWhitelists(v) == Ok(a) && ReadSettings(v) == Ok(s)
  {
    PartsGets(x, xs, a, s);
    assert FIXED_KEYS[0] == "supervisor" && FIXED_KEYS[1] == "members" && FIXED_KEYS[2] == "tool_ids";
    assert FIXED_KEYS[3] == "skill_names" && FIXED_KEYS[4] == "knowledge_source_ids" && FIXED_KEYS[5] == "max_steps";
    assert FIXED_KEYS[6] == "max_parallel_members" && FIXED_KEYS[7] == "timeout_seconds";
    assert FIXED_KEYS[8] == "failure_strategy" && FIXED_KEYS[9] == "approval_policy_id";
    ReadStoredWhitelists(v, a);
  }

  /**
   Normalisation is a fixpoint on trusted dictionaries.  The one thing it can still refuse is a team name of
   white space only, which the service lets through.
   */
  lemma NormalizeTrusted(h: Hash, name: string, description: string, d: Definition, cs: seq<Capture>)
    requires |cs| == |Everyone(d)| && Normal(d) && HexDigests(h)
    ensures NormalizeDefinition(TrustedJson(h, name, description, d, cs)) ==
            if NotBlank(name) then Ok(TrustedRecord(h, name, description, d, cs)) else Err(InvalidDefinition("name"))
  {
    var v := TrustedJson(h, name, description, d, cs);
    var ms := TrustedMembersJson(h, Everyone(d), cs);
    TrustedGets(h, name, description, d, cs);
    ReadBack(v, ms[0], Arr(ms[1..]), d.allow, d.settings);
    ReadTrustedRoster(h, v, Everyone(d), cs);
  }
}
