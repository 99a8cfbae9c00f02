/**
 What a version that passes verification has in its rows (backend/app/runtime/execution_snapshot.py,
 `_verify_team_version` and the member checks below it): a changed row does not pass.
 */
module TeamVerified {
  import opened Outcomes
  import opened Json
  import opened Canonical
  import opened PyDict
  import opened TeamDefinition
  import opened TeamRows
  import opened TeamService
  import opened TeamSnapshot
  import opened TeamRunnable

  lemma TextArraysAgree(a: seq<string>, b: seq<string>)
    requires DictEq(TextArray(a), TextArray(b))
    ensures a == b
  {
    var x, y := TextArray(a), TextArray(b);
    assert |x.items| == |y.items|;
    forall i | 0 <= i < |a|
      ensures a[i] == b[i]
    {
      assert DictEq(x.items[i], y.items[i]);
    }
  }

  lemma WhitelistsAgree(a: Whitelists, b: Whitelists)
    requires DictEq(TextArray(a.tools), TextArray(b.tools)) && DictEq(TextArray(a.skills), TextArray(b.skills))
    requires DictEq(TextArray(a.knowledge), TextArray(b.knowledge))
    ensures a == b
  {
    TextArraysAgree(a.tools, b.tools);
    TextArraysAgree(a.skills, b.skills);
    TextArraysAgree(a.knowledge, b.knowledge);
  }

  /** The row says what the member's dictionary says, and its digest is that of the captured agent. */
  predicate Says(h: Hash, row: MemberRow, m: Member, position: int) {
    && row.position == position
    && row.agentId == m.agentId && row.role == m.role && row.responsibility == m.responsibility && row.allow == m.allow
    && m.captured.Some? && row.digest == Some(m.captured.value.digest) && DictEq(row.agent, m.captured.value.agent)
    && h(Bytes(row.agent)) == row.digest.value && h(Bytes(m.captured.value.agent)) == row.digest.value
  }

  lemma VerifiedMemberSays(h: Hash, row: MemberRow, m: Member, position: int)
    requires VerifyMember(h, row, MemberJson(m), position).Ok?
    ensures Says(h, row, m, position)
  {
    hide Select, Bytes;
    MemberJsonGets(m);
    WhitelistsAgree(row.allow, m.allow);
  }

  lemma {:induction false} InsertKeeps(r: MemberRow, rows: seq<MemberRow>)
    ensures multiset(InsertByPosition(r, rows)) == multiset(rows) + multiset{r}
  {
    if rows == [] || r.position <= rows[0].position {
    } else {
      InsertKeeps(r, rows[1..]);
      assert rows == [rows[0]] + rows[1..];
    }
  }

  lemma {:induction false} SortKeeps(rows: seq<MemberRow>)
    ensures multiset(SortByPosition(rows)) == multiset(rows)
  {
    if rows != [] {
      SortKeeps(rows[1..]);
      InsertKeeps(rows[0], SortByPosition(rows[1..]));
      assert rows == [rows[0]] + rows[1..];
    }
  }

  lemma ColumnsAgree(row: VersionRow, d: Definition)
    requires row.definition == DefinitionJson(d) && ColumnsMirror(row)
    ensures row.allow == d.allow && row.settings == d.settings
  {
    hide DefinitionJson, TextArray;
    DefinitionJsonGets(d);
    WhitelistsAgree(row.allow, d.allow);
  }

  /**
   Whatever rows stand beside a stored definition: if they verify, the digest is that of the definition, the columns
   repeat it, and there is one member row for each member, in its place, that says what the definition says of it.
   */
  lemma VerifiedMirrors(h: Hash, row: VersionRow, d: Definition) returns (rows: seq<MemberRow>)
    requires row.definition == DefinitionJson(d) && VerifyTeamVersion(h, row).Ok?
    ensures row.digest == Some(h(Bytes(row.definition))) && row.allow == d.allow && row.settings == d.settings
    ensures multiset(rows) == multiset(row.members) && |rows| == 1 + |d.members|
    ensures forall i :: 0 <= i < |rows| ==> Says(h, rows[i], if i == 0 then d.supervisor else d.members[i - 1], i)
  {
    hide DefinitionJson, MemberJson, VerifyMember, ColumnsMirror, Says, Bytes, VerifyMembers;
    StoredMembers(d);
    ColumnsAgree(row, d);
    SortKeeps(row.members);
    rows := SortByPosition(row.members);
    var defined := DefinedMembers(DefinitionJson(d)).value;
    VerifyMembersEach(h, rows, defined);
    forall i | 0 <= i < |rows|
      ensures Says(h, rows[i], Everyone(d)[i], i)
    {
      VerifiedMemberSays(h, rows[i], Everyone(d)[i], i);
    }
  }
}
