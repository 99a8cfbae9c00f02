/**
 Teams and their versions as rows (backend/app/collaboration/repository.py and the mutating operations of
 backend/app/collaboration/service.py).

 Every operation is first a function from one database state to the next, or the exception it raises; `Database`
 carries the operations out on its rows and is proved to do exactly that.
 */
module TeamRepository {
  import opened Outcomes
  import opened Json
  import opened Canonical
  import opened TeamDefinition
  import opened TeamRows
  import opened TeamService

  datatype Store = Store(teams: map<string, TeamRow>, versions: map<string, VersionRow>)

  const EMPTY := Store(map[], map[])

  // ---------- the rows of one team ----------

  predicate IsVersion(versions: map<string, VersionRow>, t: string, id: string) {
    id in versions && versions[id].teamId == t
  }

  predicate IsDraft(versions: map<string, VersionRow>, t: string, id: string) {
    IsVersion(versions, t, id) && versions[id].status == Draft
  }

  predicate IsPublished(versions: map<string, VersionRow>, t: string, id: string) {
    IsVersion(versions, t, id) && versions[id].status == Published
  }

  predicate IsLatest(versions: map<string, VersionRow>, t: string, id: string) {
    && IsVersion(versions, t, id)
    && forall other :: other in versions && versions[other].teamId == t ==>
                         versions[other].version <= versions[id].version
  }

  /** Some draft row of the team. */
  ghost function DraftOf(s: Store, t: string): Option<string> {
    if exists id :: IsDraft(s.versions, t, id) then
      var id :| IsDraft(s.versions, t, id);
      Some(id)
    else None
  }

  /** `coalesce(max(version), 0)` over the rows of the team. */
  ghost function LatestVersion(s: Store, t: string): nat {
    if exists id :: IsLatest(s.versions, t, id) then
      var id :| IsLatest(s.versions, t, id);
      s.versions[id].version
    else 0
  }

  predicate InScope(s: Store, scope: Scope, t: string) {
    t in s.teams && s.teams[t].unitId == scope.unitId && s.teams[t].projectId == scope.projectId
  }

  predicate NameTaken(s: Store, project: string, name: string) {
    exists t :: t in s.teams && s.teams[t].projectId == project && s.teams[t].name == name
  }

  /** The rows an operation leaves: an exception rolls everything back. */
  function Committed(s: Store, outcome: Normalized<Store>): Store {
    if outcome.Ok? then outcome.value else s
  }

  // ---------- what each operation does ----------

  function Created(s: Store, t: string, draft: string, scope: Scope, name: string, description: string,
                   user: string): Normalized<Store>
  {
    if t in s.teams || NameTaken(s, scope.projectId, name) || draft in s.versions then Err(DuplicateKey)
    else
      Ok(Store(s.teams[t := TeamRow(scope.unitId, scope.projectId, name, description, false, 1, None, user)],
               s.versions[draft := FreshDraft(t)]))
  }

  ghost function Saved(s: Store, t: string, expected: int, definition: Json, user: string): Normalized<Store> {
    if t !in s.teams then Err(TeamNotFound)
    else if s.teams[t].draftRevision != expected then Err(DraftConflict)
    else match DraftOf(s, t)
      case None => Err(InvalidDefinition("draft"))
      case Some(draft) =>
        var d :- NormalizeDefinition(definition);
        Ok(DraftSaved(s, t, draft, d, expected, user))
  }

  function DraftSaved(s: Store, t: string, draft: string, d: Definition, expected: int, user: string): Store
    requires t in s.teams && draft in s.versions
  {
    Store(s.teams[t := s.teams[t].(draftRevision := expected + 1, updatedBy := user)],
          s.versions[draft := ReplaceDefinition(s.versions[draft], d)])
  }

  /** The draft row becomes the next version; a new row with the old editable definition takes its place. */
  ghost function VersionPublished(s: Store, t: string, expected: int, definition: Option<Json>, digest: string,
                                  freshId: string, user: string): Normalized<Store>
  {
    if |digest| != DIGEST_LENGTH then Err(InvalidDefinition("definition_digest"))
    else if t !in s.teams then Err(TeamNotFound)
    else if s.teams[t].draftRevision != expected then Err(DraftConflict)
    else match DraftOf(s, t)
      case None => Err(InvalidDefinition("draft"))
      case Some(draft) =>
        var row := s.versions[draft];
        var editable :- NormalizeDefinition(row.definition);
        var normalized :- NormalizeDefinition(if definition.Some? then definition.value else row.definition);
        if freshId in s.versions then Err(DuplicateKey)
        else
          Ok(Advanced(s, t, draft, editable, normalized, LatestVersion(s, t) + 1, digest, freshId, user))
  }

  function Advanced(s: Store, t: string, draft: string, editable: Definition, normalized: Definition, next: nat,
                    digest: string, freshId: string, user: string): Store
    requires t in s.teams && draft in s.versions
  {
    Store(s.teams[t := s.teams[t].(publishedVersion := Some(draft), updatedBy := user)],
          s.versions[draft := PublishedFrom(s.versions[draft], normalized, next, digest, user)]
                    [freshId := ReplaceDefinition(FreshDraft(t), editable)])
  }

  /** What the service brings to a publication besides the rows. */
  datatype Publication = Publication(
    platform: Platform, ceilings: Ceilings, maxBytes: int, scope: Scope, freshId: string, user: string)

  ghost function TeamPublished(h: Hash, s: Store, t: string, p: Publication): Normalized<Store> {
    if !InScope(s, p.scope, t) then Err(TeamNotFound)
    else match DraftOf(s, t)
      case None => Err(InvalidDefinition("draft"))
      case Some(draft) =>
        var team := s.teams[t];
        var trusted :- TrustedDefinition(h, p.platform, p.ceilings, p.scope, team.name, team.description,
                                         s.versions[draft].definition);
        if |Bytes(trusted)| > p.maxBytes then Err(InvalidDefinition("size"))
        else VersionPublished(s, t, team.draftRevision, Some(trusted), Digest(h, trusted), p.freshId, p.user)
  }

  function Toggled(s: Store, scope: Scope, t: string, enabled: bool, user: string): Normalized<Store> {
    if !InScope(s, scope, t) then Err(TeamNotFound)
    else if enabled && s.teams[t].publishedVersion.None? then Err(TeamUnavailable)
    else Ok(s.(teams := s.teams[t := s.teams[t].(enabled := enabled, updatedBy := user)]))
  }

  function Renamed(s: Store, scope: Scope, t: string, name: string, description: string, user: string)
    : Normalized<Store>
  {
    if !InScope(s, scope, t) then Err(TeamNotFound)
    else if name != s.teams[t].name && NameTaken(s, scope.projectId, name) then Err(DuplicateKey)
    else Ok(s.(teams := s.teams[t := s.teams[t].(name := name, description := description, updatedBy := user)]))
  }

  /** The version a run of the team uses, with the digest it must still have. */
  function ResolveForRun(h: Hash, s: Store, scope: Scope, t: string): Normalized<(string, string)> {
    if !InScope(s, scope, t) || !s.teams[t].enabled || s.teams[t].publishedVersion.None? then Err(TeamUnavailable)
    else
      var id := s.teams[t].publishedVersion.value;
      if id !in s.versions || s.versions[id].status != Published then Err(TeamUnavailable)
      else
        var row := s.versions[id];
        Ok((id, if row.digest.Some? && row.digest.value != "" then row.digest.value else Digest(h, row.definition)))
  }

  lemma AdvanceTouched(s: Store, t: string, draft: string, editable: Definition, normalized: Definition, next: nat,
                       digest: string, freshId: string, user: string)
    requires t in s.teams && draft in s.versions
    ensures var touched := s.(teams := s.teams[t := s.teams[t].(updatedBy := user)]);
            (Advanced(touched, t, draft, editable, normalized, next, digest, freshId, user)
             == Advanced(s, t, draft, editable, normalized, next, digest, freshId, user))
  {
  }

  // ---------- what always holds of the rows ----------

  /** One draft numbered 0, versions 1, 2, ... in `ids`, and the published version is the last of them. */
  ghost predicate TeamRowsHold(s: Store, t: string, draft: string, ids: seq<string>) {
    && t in s.teams
    && IsDraft(s.versions, t, draft) && s.versions[draft].version == 0
    && (forall id :: IsDraft(s.versions, t, id) ==> id == draft)
    && (forall id :: IsPublished(s.versions, t, id) ==> id in ids)
    && (forall k :: 0 <= k < |ids| ==> IsPublished(s.versions, t, ids[k]) && s.versions[ids[k]].version == k + 1)
    && s.teams[t].publishedVersion == (if ids == [] then None else Some(ids[|ids| - 1]))
    && (s.teams[t].enabled ==> ids != [])
  }

  ghost predicate Sound(s: Store) {
    && (forall t :: t in s.teams ==> exists draft, ids :: TeamRowsHold(s, t, draft, ids))
    && Owned(s)
  }

  /** Every version belongs to a team there is. */
  ghost predicate Owned(s: Store) {
    forall id :: id in s.versions ==> s.versions[id].teamId in s.teams
  }

  lemma OnlyDraft(s: Store, t: string, draft: string, ids: seq<string>)
    requires TeamRowsHold(s, t, draft, ids)
    ensures DraftOf(s, t) == Some(draft)
  {
    assert IsDraft(s.versions, t, draft);
  }

  lemma LatestExists(s: Store, t: string, draft: string, ids: seq<string>)
    requires TeamRowsHold(s, t, draft, ids)
    ensures exists id :: id in s.versions && IsLatest(s.versions, t, id)
    ensures forall id :: IsLatest(s.versions, t, id) ==> id in s.versions && s.versions[id].version == |ids|
  {
    var top := if ids == [] then draft else ids[|ids| - 1];
    assert IsDraft(s.versions, t, draft);
    if ids != [] {
      assert top in ids && IsPublished(s.versions, t, top);
    }
    forall other | IsVersion(s.versions, t, other) ensures s.versions[other].version <= |ids| {
      if s.versions[other].status == Draft {
        assert IsDraft(s.versions, t, other);
      } else {
        assert IsPublished(s.versions, t, other);
        var k :| 0 <= k < |ids| && ids[k] == other;
      }
    }
    assert IsLatest(s.versions, t, top);
  }

  lemma LatestIsCount(s: Store, t: string, draft: string, ids: seq<string>)
    requires TeamRowsHold(s, t, draft, ids)
    ensures LatestVersion(s, t) == |ids|
  {
    LatestExists(s, t, draft, ids);
  }

  lemma SoundDraft(s: Store, t: string, draft: string)
    requires Sound(s) && t in s.teams && IsDraft(s.versions, t, draft)
    ensures DraftOf(s, t) == Some(draft)
  {
    var only, ids :| TeamRowsHold(s, t, only, ids);
    OnlyDraft(s, t, only, ids);
  }

  lemma SoundLatest(s: Store, t: string)
    requires Sound(s) && t in s.teams
    ensures exists id :: id in s.versions && IsLatest(s.versions, t, id)
    ensures forall id :: IsLatest(s.versions, t, id) ==>
              id in s.versions && s.versions[id].version == LatestVersion(s, t)
  {
    var draft, ids :| TeamRowsHold(s, t, draft, ids);
    LatestExists(s, t, draft, ids);
    LatestIsCount(s, t, draft, ids);
  }

  // ---------- when an operation goes through, and what it leaves ----------

  /** A team is created under a fresh id and a name no team of the project has, disabled and with an empty draft. */
  lemma CreatesExactlyWhen(s: Store, t: string, draft: string, scope: Scope, name: string, description: string,
                           user: string)
    ensures var r := Created(s, t, draft, scope, name, description, user);
            && (r.Ok? <==> && t !in s.teams && draft !in s.versions
                           && forall other :: other in s.teams && s.teams[other].projectId == scope.projectId ==>
                                s.teams[other].name != name)
            && (r.Err? ==> r.error == DuplicateKey)
            && (r.Ok? ==>
                  && r.value.teams.Keys == s.teams.Keys + {t} && r.value.versions.Keys == s.versions.Keys + {draft}
                  && (forall other :: other in s.teams ==> r.value.teams[other] == s.teams[other])
                  && (forall other :: other in s.versions ==> r.value.versions[other] == s.versions[other])
                  && r.value.teams[t] == TeamRow(scope.unitId, scope.projectId, name, description, false, 1, None, user)
                  && IsDraft(r.value.versions, t, draft) && r.value.versions[draft].version == 0
                  && r.value.versions[draft].definition == Obj([]) && r.value.versions[draft].members == []
                  && r.value.versions[draft].allow == Whitelists([], [], [])
                  && r.value.versions[draft].settings == Settings(1, 1, 1, "fail_fast", None)
                  && r.value.versions[draft].digest == None && r.value.versions[draft].publishedBy == None)
  {
  }

  /** A draft is saved under the revision it was read at, in normal form; that counts the revision up. */
  lemma SavesExactlyWhen(s: Store, t: string, expected: int, definition: Json, user: string, draft: string,
                         ids: seq<string>)
    requires TeamRowsHold(s, t, draft, ids)
    ensures var r := Saved(s, t, expected, definition, user);
            && (r.Ok? <==> s.teams[t].draftRevision == expected && NormalizeDefinition(definition).Ok?)
            && (s.teams[t].draftRevision != expected ==> r == Err(DraftConflict))
            && (r.Err? && s.teams[t].draftRevision == expected ==> NormalizeDefinition(definition) == Err(r.error))
            && (r.Ok? ==>
                  var d := NormalizeDefinition(definition).value;
                  && r.value.teams == s.teams[t := s.teams[t].(draftRevision := expected + 1, updatedBy := user)]
                  && r.value.versions.Keys == s.versions.Keys
                  && (forall id :: id in s.versions && id != draft ==> r.value.versions[id] == s.versions[id])
                  && IsDraft(r.value.versions, t, draft)
                  && var row := r.value.versions[draft];
                     && row.definition == DefinitionJson(d) && row.allow == d.allow && row.settings == d.settings
                     && row.version == 0 && row.digest == s.versions[draft].digest
                     && |row.members| == 1 + |d.members|)
  {
    hide NormalizeDefinition, DefinitionJson;
    OnlyDraft(s, t, draft, ids);
  }

  /** Enabling needs a published version; both ways touch nothing but the flag and who did it. */
  lemma TogglesExactlyWhen(s: Store, scope: Scope, t: string, enabled: bool, user: string)
    ensures var r := Toggled(s, scope, t, enabled, user);
            var here := t in s.teams && s.teams[t].unitId == scope.unitId && s.teams[t].projectId == scope.projectId;
            && (r.Ok? <==> here && (enabled ==> s.teams[t].publishedVersion.Some?))
            && (r == Err(TeamNotFound) <==> !here)
            && (r.Err? ==> r.error == TeamNotFound || r.error == TeamUnavailable)
            && (r.Ok? ==> && r.value.versions == s.versions && r.value.teams == s.teams[t := r.value.teams[t]]
                          && r.value.teams[t].enabled == enabled
                          && r.value.teams[t] == s.teams[t].(enabled := enabled, updatedBy := user))
  {
  }

  /** A team keeps its name or takes one no other team of the project has. */
  lemma RenamesExactlyWhen(s: Store, scope: Scope, t: string, name: string, description: string, user: string)
    ensures var r := Renamed(s, scope, t, name, description, user);
            var here := t in s.teams && s.teams[t].unitId == scope.unitId && s.teams[t].projectId == scope.projectId;
            && (r.Ok? <==>
                && here
                && (s.teams[t].name == name
                    || forall other :: other in s.teams && s.teams[other].projectId == scope.projectId ==>
                         s.teams[other].name != name))
            && (r == Err(TeamNotFound) <==> !here)
            && (r.Err? ==> r.error == TeamNotFound || r.error == DuplicateKey)
            && (r.Ok? ==>
                  && r.value.versions == s.versions && r.value.teams == s.teams[t := r.value.teams[t]]
                  && r.value.teams[t] == s.teams[t].(name := name, description := description, updatedBy := user))
  {
  }

  // ---------- the operations on a database ----------

  class Database {
    var teams: map<string, TeamRow>
    var versions: map<string, VersionRow>

    constructor ()
      ensures Contents() == EMPTY
    {
      teams, versions := map[], map[];
    }

    ghost function Contents(): Store
      reads this
    {
      Store(teams, versions)
    }

    method Create(t: string, draft: string, scope: Scope, name: string, description: string, user: string)
      returns (r: Normalized<()>)
      modifies this
      ensures Contents() == Committed(old(Contents()),
                                      Created(old(Contents()), t, draft, scope, name, description, user))
      ensures r.Ok? <==> Created(old(Contents()), t, draft, scope, name, description, user).Ok?
    {
      if t in teams || NameTaken(Store(teams, versions), scope.projectId, name) {
        return Err(DuplicateKey);
      }
      var saved := teams;
      teams := teams[t := TeamRow(scope.unitId, scope.projectId, name, description, false, 1, None, user)];
      if draft in versions {
        teams := saved;
        return Err(DuplicateKey);
      }
      versions := versions[draft := FreshDraft(t)];
      return Ok(());
    }

    method LockDraft(t: string) returns (r: Normalized<string>)
      ensures r.Ok? <==> DraftOf(Contents(), t).Some?
      ensures r.Ok? ==> IsDraft(versions, t, r.value)
      ensures r.Err? ==> r == Err(InvalidDefinition("draft"))
    {
      if id :| id in versions && versions[id].teamId == t && versions[id].status == Draft {
        assert IsDraft(versions, t, id);
        return Ok(id);
      }
      return Err(InvalidDefinition("draft"));
    }

    method ReplaceDraft(draft: string, d: Definition)
      requires draft in versions
      modifies this`versions
      ensures versions == old(versions)[draft := ReplaceDefinition(old(versions)[draft], d)]
    {
      var row := versions[draft];
      row := row.(definition := DefinitionJson(d));
      row := row.(allow := d.allow);
      row := row.(settings := d.settings);
      row := row.(members := []);
      for i := 0 to |Everyone(d)|
        invariant row == ReplaceDefinition(old(versions)[draft], d).(members := MemberRecords(Everyone(d))[..i])
      {
        row := row.(members := row.members + [MemberRecord(Everyone(d)[i], i)]);
      }
      assert MemberRecords(Everyone(d))[..|Everyone(d)|] == MemberRecords(Everyone(d));
      versions := versions[draft := row];
    }

    method SaveDraft(t: string, expected: int, definition: Json, user: string) returns (r: Normalized<()>)
      requires Sound(Contents())
      modifies this
      ensures Contents() == Committed(old(Contents()), Saved(old(Contents()), t, expected, definition, user))
      ensures r.Ok? <==> Saved(old(Contents()), t, expected, definition, user).Ok?
    {
      hide NormalizeDefinition, ReplaceDefinition, Sound;
      if t !in teams {
        return Err(TeamNotFound);
      }
      if teams[t].draftRevision != expected {
        return Err(DraftConflict);
      }
      var draft :- LockDraft(t);
      SoundDraft(Contents(), t, draft);
      var d :- NormalizeDefinition(definition);
      ReplaceDraft(draft, d);
      teams := teams[t := teams[t].(draftRevision := expected + 1, updatedBy := user)];
      return Ok(());
    }

    /** The repository's step; an exception leaves the session as it is, for the caller to roll back. */
    method PublishVersion(t: string, expected: int, definition: Option<Json>, digest: string, freshId: string,
                          user: string)
      returns (r: Normalized<string>)
      requires Sound(Contents())
      modifies this
      ensures var outcome := VersionPublished(old(Contents()), t, expected, definition, digest, freshId, user);
              if outcome.Ok? then r.Ok? && DraftOf(old(Contents()), t) == Some(r.value) && Contents() == outcome.value
              else r == Err(outcome.error)
    {
      hide NormalizeDefinition, Advanced, ReplaceDefinition, Sound, IsLatest, LatestVersion;
      if |digest| != DIGEST_LENGTH {
        return Err(InvalidDefinition("definition_digest"));
      }
      if t !in teams {
        return Err(TeamNotFound);
      }
      if teams[t].draftRevision != expected {
        return Err(DraftConflict);
      }
      var draft :- LockDraft(t);
      SoundDraft(Contents(), t, draft);
      teams := teams[t := teams[t].(updatedBy := user)];
      var editable :- NormalizeDefinition(versions[draft].definition);
      var normalized :- NormalizeDefinition(if definition.Some? then definition.value else versions[draft].definition);
      SoundLatest(old(Contents()), t);
      var top :| top in versions && IsLatest(versions, t, top);
      var next := versions[top].version + 1;
      assert next == LatestVersion(old(Contents()), t) + 1;
      if freshId in versions {
        ReplaceDraft(draft, normalized);
        return Err(DuplicateKey);
      }
      Advance(t, draft, editable, normalized, next, digest, freshId, user);
      AdvanceTouched(old(Contents()), t, draft, editable, normalized, next, digest, freshId, user);
      return Ok(draft);
    }

    method Advance(t: string, draft: string, editable: Definition, normalized: Definition, next: nat, digest: string,
                   freshId: string, user: string)
      requires t in teams && draft in versions && freshId !in versions && teams[t].updatedBy == user
      modifies this
      ensures Contents() == Advanced(old(Contents()), t, draft, editable, normalized, next, digest, freshId, user)
    {
      hide MemberRecords, DefinitionJson;
      ReplaceDraft(draft, normalized);
      versions := versions[draft := versions[draft].(
                    version := next, status := Published, digest := Some(digest), publishedBy := Some(user))];
      versions := versions[freshId := FreshDraft(t)];
      ReplaceDraft(freshId, editable);
      teams := teams[t := teams[t].(publishedVersion := Some(draft))];
    }

    /** The service's step: whatever fails, the rows are rolled back. */
    method Publish(h: Hash, t: string, p: Publication) returns (r: Normalized<string>)
      requires Sound(Contents())
      modifies this
      ensures Contents() == Committed(old(Contents()), TeamPublished(h, old(Contents()), t, p))
      ensures r.Ok? <==> TeamPublished(h, old(Contents()), t, p).Ok?
      ensures r.Ok? ==> DraftOf(old(Contents()), t) == Some(r.value)
    {
      hide TrustedDefinition, VersionPublished, Sound, Bytes, Digest;
      if !InScope(Store(teams, versions), p.scope, t) {
        return Err(TeamNotFound);
      }
      var draft :- LockDraft(t);
      SoundDraft(Contents(), t, draft);
      var team := teams[t];
      var trusted :- TrustedDefinition(h, p.platform, p.ceilings, p.scope, team.name, team.description,
                                       versions[draft].definition);
      if |Bytes(trusted)| > p.maxBytes {
        return Err(InvalidDefinition("size"));
      }
      var savedTeams, savedVersions := teams, versions;
      r := PublishVersion(t, team.draftRevision, Some(trusted), Digest(h, trusted), p.freshId, p.user);
      if r.Err? {
        teams, versions := savedTeams, savedVersions;
      }
    }

    method SetEnabled(scope: Scope, t: string, enabled: bool, user: string) returns (r: Normalized<()>)
      modifies this`teams
      ensures Contents() == Committed(old(Contents()), Toggled(old(Contents()), scope, t, enabled, user))
      ensures r.Ok? <==> Toggled(old(Contents()), scope, t, enabled, user).Ok?
    {
      if !InScope(Store(teams, versions), scope, t) {
        return Err(TeamNotFound);
      }
      if enabled && teams[t].publishedVersion.None? {
        return Err(TeamUnavailable);
      }
      teams := teams[t := teams[t].(enabled := enabled, updatedBy := user)];
      return Ok(());
    }

    method Update(scope: Scope, t: string, name: string, description: string, user: string)
      returns (r: Normalized<()>)
      modifies this`teams
      ensures Contents() == Committed(old(Contents()), Renamed(old(Contents()), scope, t, name, description, user))
      ensures r.Ok? <==> Renamed(old(Contents()), scope, t, name, description, user).Ok?
    {
      if !InScope(Store(teams, versions), scope, t) {
        return Err(TeamNotFound);
      }
      if name != teams[t].name && NameTaken(Store(teams, versions), scope.projectId, name) {
        return Err(DuplicateKey);
      }
      teams := teams[t := teams[t].(name := name, description := description, updatedBy := user)];
      return Ok(());
    }
  }
}
