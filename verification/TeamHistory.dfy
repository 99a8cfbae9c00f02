/**
 What holds after any sequence of team operations by any number of clients.

 Each operation runs under a row lock in one transaction, so a history is a sequence of whole operations; one that
 raises leaves the rows as they were.
 */
module TeamHistory {
  import opened Outcomes
  import opened Json
  import opened Canonical
  import opened TeamDefinition
  import opened TeamRows
  import opened TeamService
  import opened TeamSnapshot
  import opened TeamPublication
  import opened TeamRunnable
  import opened TeamRepository

  datatype Step =
    | Create(t: string, draft: string, scope: Scope, name: string, description: string, user: string)
    | Save(t: string, scope: Scope, expected: int, definition: Json, user: string)
    | Publish(t: string, p: Publication)
    | Toggle(t: string, scope: Scope, enabled: bool, user: string)
    | Rename(t: string, scope: Scope, name: string, description: string, user: string)

  ghost function Apply(h: Hash, s: Store, step: Step): Normalized<Store> {
    match step
    case Create(t, draft, scope, name, description, user) => Created(s, t, draft, scope, name, description, user)
    case Save(t, scope, expected, definition, user) =>
      if InScope(s, scope, t) then Saved(s, t, expected, definition, user) else Err(TeamNotFound)
    case Publish(t, p) => TeamPublished(h, s, t, p)
    case Toggle(t, scope, enabled, user) => Toggled(s, scope, t, enabled, user)
    case Rename(t, scope, name, description, user) => Renamed(s, scope, t, name, description, user)
  }

  ghost function Next(h: Hash, s: Store, step: Step): Store {
    Committed(s, Apply(h, s, step))
  }

  ghost function Run(h: Hash, s: Store, steps: seq<Step>): Store {
    if steps == [] then s
    else
      var n := |steps| - 1;
      Next(h, Run(h, s, steps[..n]), steps[n])
  }

  // ---------- one step ----------

  /** Published rows, with their members, are as they were. */
  ghost predicate Frozen(s: Store, s': Store) {
    forall id :: id in s.versions && s.versions[id].status == Published ==>
                   id in s'.versions && s'.versions[id] == s.versions[id]
  }

  /** Every row of another team is there in both, and the same. */
  ghost predicate Carried(s: Store, s': Store, t: string) {
    && (forall u :: u in s.teams && u != t ==> u in s'.teams && s'.teams[u] == s.teams[u])
    && (forall id :: id in s.versions && s.versions[id].teamId != t ==>
                       id in s'.versions && s'.versions[id] == s.versions[id])
  }

  /** Only the rows of team `t` differ. */
  ghost predicate SameElsewhere(s: Store, s': Store, t: string) {
    Carried(s, s', t) && Carried(s', s, t)
  }

  lemma OthersHold(s: Store, s': Store, t: string, u: string, draft: string, ids: seq<string>)
    requires SameElsewhere(s, s', t) && u != t && TeamRowsHold(s, u, draft, ids)
    ensures TeamRowsHold(s', u, draft, ids)
  {
    forall id ensures IsVersion(s'.versions, u, id) <==> IsVersion(s.versions, u, id)
      ensures IsVersion(s'.versions, u, id) ==> s'.versions[id] == s.versions[id]
    {
    }
    forall id ensures IsDraft(s'.versions, u, id) <==> IsDraft(s.versions, u, id)
      ensures IsPublished(s'.versions, u, id) <==> IsPublished(s.versions, u, id)
    {
    }
  }

  lemma SoundAfter(s: Store, s': Store, t: string, draft: string, ids: seq<string>)
    requires Sound(s) && SameElsewhere(s, s', t) && TeamRowsHold(s', t, draft, ids) && Owned(s')
    ensures Sound(s')
  {
    forall u | u in s'.teams ensures exists d, xs :: TeamRowsHold(s', u, d, xs) {
      if u != t {
        assert u in s.teams;
        var d, xs :| TeamRowsHold(s, u, d, xs);
        OthersHold(s, s', t, u, d, xs);
      }
    }
  }

  lemma CreateKeeps(s: Store, t: string, draft: string, row: VersionRow, team: TeamRow)
    requires Owned(s) && t !in s.teams && draft !in s.versions
    requires row.teamId == t && row.status == Draft && row.version == 0
    requires team.publishedVersion.None? && !team.enabled
    ensures var s' := Store(s.teams[t := team], s.versions[draft := row]);
            SameElsewhere(s, s', t) && Frozen(s, s') && Owned(s') && TeamRowsHold(s', t, draft, [])
  {
  }

  lemma SaveKeeps(s: Store, t: string, draft: string, ids: seq<string>, row: VersionRow, team: TeamRow)
    requires Owned(s) && TeamRowsHold(s, t, draft, ids)
    requires row.teamId == t && row.status == Draft && row.version == 0
    requires team.publishedVersion == s.teams[t].publishedVersion && (team.enabled ==> ids != [])
    ensures var s' := Store(s.teams[t := team], s.versions[draft := row]);
            SameElsewhere(s, s', t) && Frozen(s, s') && Owned(s') && TeamRowsHold(s', t, draft, ids)
  {
    var s' := Store(s.teams[t := team], s.versions[draft := row]);
    forall id ensures IsPublished(s.versions, t, id) <==> IsPublished(s'.versions, t, id)
      ensures IsDraft(s.versions, t, id) <==> IsDraft(s'.versions, t, id)
    {
    }
  }

  lemma AdvanceKeeps(s: Store, t: string, draft: string, ids: seq<string>, published: VersionRow, freshId: string,
                     row: VersionRow, team: TeamRow)
    requires Owned(s) && TeamRowsHold(s, t, draft, ids) && freshId !in s.versions
    requires published.teamId == t && published.status == Published && published.version == |ids| + 1
    requires row.teamId == t && row.status == Draft && row.version == 0
    requires team.publishedVersion == Some(draft)
    ensures var s' := Store(s.teams[t := team], s.versions[draft := published][freshId := row]);
            SameElsewhere(s, s', t) && Frozen(s, s') && Owned(s') && TeamRowsHold(s', t, freshId, ids + [draft])
  {
    var s' := Store(s.teams[t := team], s.versions[draft := published][freshId := row]);
    forall id ensures IsPublished(s'.versions, t, id) <==> IsPublished(s.versions, t, id) || id == draft
      ensures IsDraft(s'.versions, t, id) <==> id == freshId
    {
      assert IsDraft(s.versions, t, id) ==> id == draft;
    }
  }

  // ---------- the draft, and the saves it has seen ----------

  /** A save that was accepted: the revision it expected and the definition it brought. */
  datatype Accepted = Accepted(expected: int, definition: Json)

  /** A draft row that was never saved, or the normal form of the last save. */
  function DraftRow(t: string, saves: seq<Accepted>): VersionRow
    requires saves != [] ==> NormalizeDefinition(saves[|saves| - 1].definition).Ok?
  {
    if saves == [] then FreshDraft(t)
    else ReplaceDefinition(FreshDraft(t), NormalizeDefinition(saves[|saves| - 1].definition).value)
  }

  ghost predicate DraftHolds(s: Store, t: string, saves: seq<Accepted>) {
    && t in s.teams
    && s.teams[t].draftRevision == 1 + |saves|
    && (forall k :: 0 <= k < |saves| ==> saves[k].expected == k + 1)
    && (saves != [] ==> NormalizeDefinition(saves[|saves| - 1].definition).Ok?)
    && (forall id :: IsDraft(s.versions, t, id) ==> s.versions[id] == DraftRow(t, saves))
  }

  lemma DraftElsewhere(s: Store, s': Store, t: string, u: string, saves: seq<Accepted>)
    requires SameElsewhere(s, s', t) && u != t && DraftHolds(s, u, saves)
    ensures DraftHolds(s', u, saves)
  {
    hide NormalizeDefinition, DraftRow;
    forall id ensures IsDraft(s'.versions, u, id) ==> IsDraft(s.versions, u, id) && s'.versions[id] == s.versions[id] {
    }
  }

  lemma EmptyRefused()
    ensures NormalizeDefinition(Obj([])).Err?
  {
  }

  lemma SavedParts(s: Store, t: string, expected: int, definition: Json, user: string)
    returns (draft: string, ids: seq<string>, d: Definition)
    requires Sound(s) && Saved(s, t, expected, definition, user).Ok?
    ensures TeamRowsHold(s, t, draft, ids) && NormalizeDefinition(definition) == Ok(d)
    ensures expected == s.teams[t].draftRevision
    ensures Saved(s, t, expected, definition, user) == Ok(DraftSaved(s, t, draft, d, expected, user))
  {
    hide NormalizeDefinition, DraftSaved;
    draft, ids :| TeamRowsHold(s, t, draft, ids);
    OnlyDraft(s, t, draft, ids);
    d := NormalizeDefinition(definition).value;
  }

  lemma DraftSavedKeeps(s: Store, t: string, draft: string, ids: seq<string>, d: Definition, expected: int,
                        user: string)
    requires Sound(s) && TeamRowsHold(s, t, draft, ids)
    ensures var s' := DraftSaved(s, t, draft, d, expected, user);
            SameElsewhere(s, s', t) && Frozen(s, s') && Sound(s') && TeamRowsHold(s', t, draft, ids)
  {
    hide DefinitionJson, MemberRecords, Sound;
    var s' := DraftSaved(s, t, draft, d, expected, user);
    SoundOwned(s);
    SaveKeeps(s, t, draft, ids, s'.versions[draft], s'.teams[t]);
    SoundAfter(s, s', t, draft, ids);
  }

  lemma SoundOwned(s: Store)
    requires Sound(s)
    ensures Owned(s)
  {
  }

  lemma SaveStep(s: Store, t: string, expected: int, definition: Json, user: string, saves: seq<Accepted>)
    requires Sound(s) && DraftHolds(s, t, saves) && Saved(s, t, expected, definition, user).Ok?
    ensures var s' := Saved(s, t, expected, definition, user).value;
            && SameElsewhere(s, s', t) && Frozen(s, s') && Sound(s')
            && DraftHolds(s', t, saves + [Accepted(expected, definition)])
  {
    hide NormalizeDefinition, DefinitionJson, MemberRecords, Sound, Saved;
    var draft, ids, d := SavedParts(s, t, expected, definition, user);
    DraftSavedKeeps(s, t, draft, ids, d, expected, user);
  }

  /** The editable definition a publication starts from is the draft's own: normalising it again changes nothing. */
  lemma EditableIsDraft(t: string, saves: seq<Accepted>)
    requires saves != [] ==> NormalizeDefinition(saves[|saves| - 1].definition).Ok?
    requires NormalizeDefinition(DraftRow(t, saves).definition).Ok?
    ensures saves != []
    ensures ReplaceDefinition(FreshDraft(t), NormalizeDefinition(DraftRow(t, saves).definition).value)
         == DraftRow(t, saves)
  {
    hide NormalizeDefinition;
    EmptyRefused();
    NormalizeIdempotent(saves[|saves| - 1].definition);
  }

  lemma VersionParts(s: Store, t: string, expected: int, definition: Option<Json>, digest: string, freshId: string,
                     user: string)
    returns (draft: string, ids: seq<string>, editable: Definition, normalized: Definition)
    requires Sound(s) && VersionPublished(s, t, expected, definition, digest, freshId, user).Ok?
    ensures TeamRowsHold(s, t, draft, ids) && freshId !in s.versions
    ensures NormalizeDefinition(s.versions[draft].definition) == Ok(editable)
    ensures NormalizeDefinition(if definition.Some? then definition.value else s.versions[draft].definition)
         == Ok(normalized)
    ensures VersionPublished(s, t, expected, definition, digest, freshId, user)
         == Ok(Advanced(s, t, draft, editable, normalized, |ids| + 1, digest, freshId, user))
  {
    hide NormalizeDefinition, Advanced;
    draft, ids :| TeamRowsHold(s, t, draft, ids);
    OnlyDraft(s, t, draft, ids);
    LatestIsCount(s, t, draft, ids);
    editable := NormalizeDefinition(s.versions[draft].definition).value;
    normalized :=
      NormalizeDefinition(if definition.Some? then definition.value else s.versions[draft].definition).value;
  }

  lemma AdvancedKeeps(s: Store, t: string, draft: string, ids: seq<string>, editable: Definition,
                      normalized: Definition, digest: string, freshId: string, user: string)
    requires Sound(s) && TeamRowsHold(s, t, draft, ids) && freshId !in s.versions
    ensures var s' := Advanced(s, t, draft, editable, normalized, |ids| + 1, digest, freshId, user);
            SameElsewhere(s, s', t) && Frozen(s, s') && Sound(s') && TeamRowsHold(s', t, freshId, ids + [draft])
  {
    hide DefinitionJson, MemberRecords, Sound;
    var s' := Advanced(s, t, draft, editable, normalized, |ids| + 1, digest, freshId, user);
    SoundOwned(s);
    AdvanceKeeps(s, t, draft, ids, s'.versions[draft], freshId, s'.versions[freshId], s'.teams[t]);
    SoundAfter(s, s', t, freshId, ids + [draft]);
  }

  lemma VersionStep(s: Store, t: string, expected: int, definition: Option<Json>, digest: string, freshId: string,
                    user: string, saves: seq<Accepted>)
    requires Sound(s) && DraftHolds(s, t, saves)
    requires VersionPublished(s, t, expected, definition, digest, freshId, user).Ok?
    ensures var s' := VersionPublished(s, t, expected, definition, digest, freshId, user).value;
            SameElsewhere(s, s', t) && Frozen(s, s') && Sound(s') && DraftHolds(s', t, saves)
  {
    hide NormalizeDefinition, DefinitionJson, MemberRecords, Sound, VersionPublished, DraftRow;
    var draft, ids, editable, normalized := VersionParts(s, t, expected, definition, digest, freshId, user);
    AdvancedKeeps(s, t, draft, ids, editable, normalized, digest, freshId, user);
    EditableIsDraft(t, saves);
  }

  // ---------- what a publication does ----------

  /** A publication that goes through is the repository's step on the trusted definition. */
  lemma PublishParts(h: Hash, s: Store, t: string, p: Publication)
    returns (draft: string, d: Definition, cs: seq<Capture>)
    requires Sound(s) && TeamPublished(h, s, t, p).Ok?
    ensures t in s.teams && DraftOf(s, t) == Some(draft) && draft in s.versions
    ensures Gather(p.platform, p.ceilings, p.scope, s.versions[draft].definition) == Ok((d, cs))
    ensures var team := s.teams[t];
            var trusted := TrustedJson(h, team.name, team.description, d, cs);
            && |Bytes(trusted)| <= p.maxBytes
            && TeamPublished(h, s, t, p) ==
               VersionPublished(s, t, team.draftRevision, Some(trusted), Digest(h, trusted), p.freshId, p.user)
  {
    hide Gather, VersionPublished, Bytes, Digest, TrustedJson, Sound, TeamRowsHold;
    draft := DraftOf(s, t).value;
    DraftIn(s, t);
    var gathered := Gather(p.platform, p.ceilings, p.scope, s.versions[draft].definition).value;
    d, cs := gathered.0, gathered.1;
  }

  lemma DraftIn(s: Store, t: string)
    requires DraftOf(s, t).Some?
    ensures IsDraft(s.versions, t, DraftOf(s, t).value)
  {
  }

  /** What a publication writes, in full. */
  lemma PublishLeaves(h: Hash, s: Store, t: string, p: Publication)
    returns (draft: string, ids: seq<string>, d: Definition, cs: seq<Capture>)
    requires Sound(s) && HexDigests(h) && TeamPublished(h, s, t, p).Ok?
    ensures TeamRowsHold(s, t, draft, ids) && p.freshId !in s.versions && draft in s.versions && t in s.teams
    ensures Gather(p.platform, p.ceilings, p.scope, s.versions[draft].definition) == Ok((d, cs))
    ensures var team := s.teams[t];
            && NotBlank(team.name)
            && TeamPublished(h, s, t, p) ==
               Ok(Advanced(s, t, draft, d, TrustedRecord(h, team.name, team.description, d, cs), |ids| + 1,
                           Digest(h, TrustedJson(h, team.name, team.description, d, cs)), p.freshId, p.user))
  {
    hide Gather, VersionPublished, Bytes, Digest, TrustedJson, TeamPublished, NormalizeDefinition, TrustedRecord,
         Advanced, NotBlank, Sound, Normal;
    var draft';
    draft', d, cs := PublishParts(h, s, t, p);
    var team := s.teams[t];
    var trusted := TrustedJson(h, team.name, team.description, d, cs);
    var editable, normalized;
    draft, ids, editable, normalized := VersionParts(
      s, t, team.draftRevision, Some(trusted), Digest(h, trusted), p.freshId, p.user);
    OnlyDraft(s, t, draft, ids);
    NormalizeNormal(s.versions[draft].definition);
    NormalizeTrusted(h, team.name, team.description, d, cs);
  }

  lemma AdvancedRow(h: Hash, s: Store, t: string, draft: string, ids: seq<string>, d: Definition, cs: seq<Capture>,
                    n: nat, freshId: string, user: string)
    requires TeamRowsHold(s, t, draft, ids) && |cs| == |Everyone(d)| && freshId !in s.versions
    ensures var team := s.teams[t];
            var s' := Advanced(s, t, draft, d, TrustedRecord(h, team.name, team.description, d, cs), n,
                               Digest(h, TrustedJson(h, team.name, team.description, d, cs)), freshId, user);
            && IsPublished(s'.versions, t, draft) && draft in s'.versions
            && s'.versions[draft] == PublishedRow(h, s.versions[draft], team.name, team.description, d, cs, n, user)
  {
    hide TrustedRecord, Digest, TrustedJson, DefinitionJson, MemberRecords;
  }

  /**
   Publication goes through exactly when the draft gathers, the trusted definition fits, the team has a name that is
   more than white space, and the new row's id is unused.
   */
  lemma PublishSucceedsExactlyWhen(h: Hash, s: Store, t: string, p: Publication, draft: string, ids: seq<string>)
    requires Sound(s) && HexDigests(h) && TeamRowsHold(s, t, draft, ids)
    ensures TeamPublished(h, s, t, p).Ok? <==>
            && InScope(s, p.scope, t)
            && Gather(p.platform, p.ceilings, p.scope, s.versions[draft].definition).Ok?
            && TrustedFits(h, s, t, p, s.versions[draft].definition)
            && NotBlank(s.teams[t].name)
            && p.freshId !in s.versions
  {
    hide Gather, Bytes, TrustedJson, NormalizeDefinition, TrustedRecord, Advanced, NotBlank, Sound, Normal;
    OnlyDraft(s, t, draft, ids);
    if TeamPublished(h, s, t, p).Ok? {
      var _, _, _, _ := PublishLeaves(h, s, t, p);
    }
    if Gather(p.platform, p.ceilings, p.scope, s.versions[draft].definition).Ok? {
      var (d, cs) := Gather(p.platform, p.ceilings, p.scope, s.versions[draft].definition).value;
      NormalizeNormal(s.versions[draft].definition);
      NormalizeTrusted(h, s.teams[t].name, s.teams[t].description, d, cs);
    }
  }

  ghost predicate TrustedFits(h: Hash, s: Store, t: string, p: Publication, draft: Json) {
    t in s.teams &&
    match TrustedDefinition(h, p.platform, p.ceilings, p.scope, s.teams[t].name, s.teams[t].description, draft)
    case Ok(trusted) => |Bytes(trusted)| <= p.maxBytes
    case Err(_) => false
  }

  // ---------- any step, for any team ----------

  lemma TeamRowKeeps(s: Store, t: string, team: TeamRow, draft: string, ids: seq<string>)
    requires Owned(s) && TeamRowsHold(s, t, draft, ids)
    requires team.publishedVersion == s.teams[t].publishedVersion && (team.enabled ==> team.publishedVersion.Some?)
    ensures var s' := s.(teams := s.teams[t := team]);
            SameElsewhere(s, s', t) && Frozen(s, s') && Owned(s') && TeamRowsHold(s', t, draft, ids)
  {
  }

  lemma RowsOfTeam(s: Store, t: string) returns (draft: string, ids: seq<string>)
    requires Sound(s) && t in s.teams
    ensures TeamRowsHold(s, t, draft, ids)
  {
    draft, ids :| TeamRowsHold(s, t, draft, ids);
  }

  lemma TeamRowStep(s: Store, t: string, team: TeamRow, saves: seq<Accepted>)
    requires Sound(s) && DraftHolds(s, t, saves)
    requires team.draftRevision == s.teams[t].draftRevision && team.publishedVersion == s.teams[t].publishedVersion
    requires team.enabled ==> team.publishedVersion.Some?
    ensures var s' := s.(teams := s.teams[t := team]);
            SameElsewhere(s, s', t) && Frozen(s, s') && Sound(s') && DraftHolds(s', t, saves)
  {
    hide NormalizeDefinition, DraftRow, SameElsewhere, Frozen, Owned, Sound, TeamRowsHold;
    var draft, ids := RowsOfTeam(s, t);
    var s' := s.(teams := s.teams[t := team]);
    SoundOwned(s);
    TeamRowKeeps(s, t, team, draft, ids);
    SoundAfter(s, s', t, draft, ids);
  }

  lemma CreateStep(s: Store, t: string, draft: string, scope: Scope, name: string, description: string, user: string)
    requires Sound(s) && Created(s, t, draft, scope, name, description, user).Ok?
    ensures var s' := Created(s, t, draft, scope, name, description, user).value;
            SameElsewhere(s, s', t) && Frozen(s, s') && Sound(s') && DraftHolds(s', t, [])
  {
    hide Sound;
    var s' := Created(s, t, draft, scope, name, description, user).value;
    SoundOwned(s);
    CreateKeeps(s, t, draft, s'.versions[draft], s'.teams[t]);
    SoundAfter(s, s', t, draft, []);
  }

  ghost function SavedBy(h: Hash, s: Store, step: Step, u: string): seq<Accepted> {
    if step.Save? && step.t == u && Apply(h, s, step).Ok? then [Accepted(step.expected, step.definition)] else []
  }

  /** The team's draft is what its saves say, if there is a team at all. */
  ghost predicate TeamHolds(s: Store, u: string, saves: seq<Accepted>) {
    if u in s.teams then DraftHolds(s, u, saves) else saves == []
  }

  /** A step on team `t` that goes through. */
  lemma OwnStep(h: Hash, s: Store, step: Step, saves: seq<Accepted>)
    requires Sound(s) && TeamHolds(s, step.t, saves) && Apply(h, s, step).Ok?
    ensures var s' := Apply(h, s, step).value;
            && SameElsewhere(s, s', step.t) && Frozen(s, s') && Sound(s')
            && DraftHolds(s', step.t, saves + SavedBy(h, s, step, step.t))
  {
    hide Sound, DraftHolds, SameElsewhere, Frozen, Saved, TrustedDefinition, Bytes, Digest, VersionPublished,
         Created;
    assert saves + [] == saves;
    match step
    case Create(t, draft, scope, name, description, user) =>
      CreatedNew(s, t, draft, scope, name, description, user);
      CreateStep(s, t, draft, scope, name, description, user);
    case Save(t, scope, expected, definition, user) => SaveStep(s, t, expected, definition, user, saves);
    case Publish(t, p) =>
      var draft, d, cs := PublishParts(h, s, t, p);
      var team := s.teams[t];
      var trusted := TrustedJson(h, team.name, team.description, d, cs);
      VersionStep(s, t, team.draftRevision, Some(trusted), Digest(h, trusted), p.freshId, p.user, saves);
    case Toggle(t, scope, enabled, user) =>
      TogglePointer(s, t);
      TeamRowStep(s, t, s.teams[t].(enabled := enabled, updatedBy := user), saves);
    case Rename(t, scope, name, description, user) =>
      TogglePointer(s, t);
      TeamRowStep(s, t, s.teams[t].(name := name, description := description, updatedBy := user), saves);
  }

  lemma CreatedNew(s: Store, t: string, draft: string, scope: Scope, name: string, description: string, user: string)
    requires Created(s, t, draft, scope, name, description, user).Ok?
    ensures t !in s.teams
  {
  }

  lemma TogglePointer(s: Store, t: string)
    requires Sound(s) && t in s.teams
    ensures s.teams[t].enabled ==> s.teams[t].publishedVersion.Some?
  {
    var draft, ids :| TeamRowsHold(s, t, draft, ids);
  }

  lemma StepHolds(h: Hash, s: Store, step: Step, u: string, saves: seq<Accepted>, own: seq<Accepted>)
    requires Sound(s) && TeamHolds(s, u, saves) && TeamHolds(s, step.t, own)
    ensures var s' := Next(h, s, step);
            Sound(s') && Frozen(s, s') && TeamHolds(s', u, saves + SavedBy(h, s, step, u))
  {
    hide Sound, DraftHolds, Apply;
    if Apply(h, s, step).Ok? {
      OwnStep(h, s, step, own);
      if u == step.t {
        OwnStep(h, s, step, saves);
        DraftThere(Next(h, s, step), u, saves + SavedBy(h, s, step, u));
      } else {
        assert saves + [] == saves;
        if u in s.teams {
          DraftElsewhere(s, Next(h, s, step), step.t, u, saves);
        }
      }
    } else {
      assert saves + [] == saves;
    }
  }

  lemma DraftThere(s: Store, u: string, saves: seq<Accepted>)
    requires DraftHolds(s, u, saves)
    ensures TeamHolds(s, u, saves)
  {
  }

  // ---------- whole histories ----------

  /** The saves of the team that were accepted, in order. */
  ghost function Saves(h: Hash, steps: seq<Step>, t: string): seq<Accepted> {
    if steps == [] then []
    else
      var n := |steps| - 1;
      Saves(h, steps[..n], t) + SavedBy(h, Run(h, EMPTY, steps[..n]), steps[n], t)
  }

  /**
   After any history each team has one draft numbered 0, versions numbered 1, 2, ... without gaps and a pointer at the
   last of them; its draft is the normal form of the last accepted save, its revision is one more than the number of
   accepted saves, and the saves were accepted under the revisions 1, 2, ... , each once.
   */
  lemma {:induction false} HistoryHolds(h: Hash, steps: seq<Step>, t: string)
    ensures Sound(Run(h, EMPTY, steps)) && TeamHolds(Run(h, EMPTY, steps), t, Saves(h, steps, t))
  {
    hide Sound, TeamHolds;
    if steps == [] {
      EmptyHolds(t);
    } else {
      var n := |steps| - 1;
      HistoryHolds(h, steps[..n], t);
      HistoryHolds(h, steps[..n], steps[n].t);
      StepHolds(h, Run(h, EMPTY, steps[..n]), steps[n], t, Saves(h, steps[..n], t), Saves(h, steps[..n], steps[n].t));
    }
  }

  lemma EmptyHolds(t: string)
    ensures Sound(EMPTY) && TeamHolds(EMPTY, t, [])
  {
  }

  lemma RunLast(h: Hash, steps: seq<Step>)
    requires steps != []
    ensures Run(h, EMPTY, steps) == Next(h, Run(h, EMPTY, steps[..|steps| - 1]), steps[|steps| - 1])
  {
    hide Next;
  }

  lemma FrozenSame(s: Store)
    ensures Frozen(s, s)
  {
  }

  lemma FrozenThrough(a: Store, b: Store, c: Store)
    requires Frozen(a, b) && Frozen(b, c)
    ensures Frozen(a, c)
  {
  }

  lemma {:induction false} RunFrozen(h: Hash, before: seq<Step>, later: seq<Step>)
    ensures Frozen(Run(h, EMPTY, before), Run(h, EMPTY, before + later))
  {
    hide Sound, TeamHolds, Next, Frozen, Run;
    if later == [] {
      assert before + later == before;
      FrozenSame(Run(h, EMPTY, before));
    } else {
      var n := |later| - 1;
      var steps := before + later;
      assert steps[..|steps| - 1] == before + later[..n] && steps[|steps| - 1] == later[n];
      RunFrozen(h, before, later[..n]);
      var s := Run(h, EMPTY, before + later[..n]);
      HistoryHolds(h, before + later[..n], later[n].t);
      StepHolds(h, s, later[n], later[n].t, Saves(h, before + later[..n], later[n].t),
                Saves(h, before + later[..n], later[n].t));
      RunLast(h, steps);
      FrozenThrough(Run(h, EMPTY, before), s, Next(h, s, later[n]));
    }
  }

  // ---------- every published version stays runnable ----------

  /** The row a publication leaves can be run exactly when every skill answers. */
  lemma PublishRuns(h: Hash, s: Store, t: string, p: Publication)
    returns (id: string, d: Definition, cs: seq<Capture>)
    requires Sound(s) && HexDigests(h) && ToolsKeyed(p.platform) && TeamPublished(h, s, t, p).Ok?
    ensures DraftOf(s, t) == Some(id) && id in s.versions
    ensures Gather(p.platform, p.ceilings, p.scope, s.versions[id].definition) == Ok((d, cs))
    ensures IsPublished(TeamPublished(h, s, t, p).value.versions, t, id)
    ensures Runnable(h, TeamPublished(h, s, t, p).value.versions[id]) <==> EverySkillAnswers(p.platform, d, cs)
  {
    hide *;
    var ids;
    id, ids, d, cs := PublishLeaves(h, s, t, p);
    OnlyDraft(s, t, id, ids);
    AdvancedRow(h, s, t, id, ids, d, cs, |ids| + 1, p.freshId, p.user);
    var team := s.teams[t];
    PublishedRunsExactlyWhen(h, p.platform, p.ceilings, p.scope, s.versions[id], team.name, team.description,
                             d, cs, |ids| + 1, p.user);
  }

  /**
   Whatever happens after a publication, its row is still there, is still the row it left, and can be run exactly when
   the skills captured for it carry the names its whitelists use.
   */
  lemma PublishedForever(h: Hash, before: seq<Step>, t: string, p: Publication, later: seq<Step>)
    returns (id: string, d: Definition, cs: seq<Capture>)
    requires HexDigests(h) && ToolsKeyed(p.platform)
    requires TeamPublished(h, Run(h, EMPTY, before), t, p).Ok?
    ensures var s := Run(h, EMPTY, before);
            && DraftOf(s, t) == Some(id) && id in s.versions
            && Gather(p.platform, p.ceilings, p.scope, s.versions[id].definition) == Ok((d, cs))
    ensures var s' := Run(h, EMPTY, before + [Publish(t, p)] + later);
            && IsPublished(s'.versions, t, id)
            && (Runnable(h, s'.versions[id]) <==> EverySkillAnswers(p.platform, d, cs))
  {
    hide Gather, Sound, Runnable, EverySkillAnswers, TeamPublished, Frozen;
    var s := Run(h, EMPTY, before);
    HistoryHolds(h, before, t);
    id, d, cs := PublishRuns(h, s, t, p);
    var steps := before + [Publish(t, p)];
    assert steps[..|steps| - 1] == before;
    RunFrozen(h, steps, later);
    FrozenRow(Run(h, EMPTY, steps), Run(h, EMPTY, steps + later), id);
  }

  lemma FrozenRow(s: Store, s': Store, id: string)
    requires Frozen(s, s') && id in s.versions && s.versions[id].status == Published
    ensures id in s'.versions && s'.versions[id] == s.versions[id]
  {
  }

  /** A row comes to be published only by a publication of its team. */
  ghost predicate OnlyPublishes(s: Store, s': Store, draft: Option<string>) {
    forall id :: id in s'.versions && s'.versions[id].status == Published ==>
                   (id in s.versions && s'.versions[id] == s.versions[id]) || Some(id) == draft
  }

  lemma OtherStepPublishes(h: Hash, s: Store, step: Step)
    requires Sound(s) && Apply(h, s, step).Ok? && !step.Publish?
    ensures OnlyPublishes(s, Apply(h, s, step).value, None)
  {
    hide NormalizeDefinition, DefinitionJson, MemberRecords, TeamPublished;
    if step.Save? {
      SaveTouchesDraft(s, step.t, step.expected, step.definition, step.user);
    }
  }

  lemma SaveTouchesDraft(s: Store, t: string, expected: int, definition: Json, user: string)
    requires Sound(s) && Saved(s, t, expected, definition, user).Ok?
    ensures OnlyPublishes(s, Saved(s, t, expected, definition, user).value, None)
  {
    hide NormalizeDefinition, DefinitionJson, MemberRecords, Saved, Sound;
    var draft, ids, d := SavedParts(s, t, expected, definition, user);
  }

  lemma PublishTouchesDraft(h: Hash, s: Store, t: string, p: Publication)
    requires Sound(s) && HexDigests(h) && TeamPublished(h, s, t, p).Ok?
    ensures OnlyPublishes(s, TeamPublished(h, s, t, p).value, DraftOf(s, t))
  {
    hide *;
    var draft, ids, d, cs := PublishLeaves(h, s, t, p);
    OnlyDraft(s, t, draft, ids);
    AdvancedPublishes(s, t, draft, d, TrustedRecord(h, s.teams[t].name, s.teams[t].description, d, cs), |ids| + 1,
                      Digest(h, TrustedJson(h, s.teams[t].name, s.teams[t].description, d, cs)), p.freshId, p.user);
  }

  lemma AdvancedPublishes(s: Store, t: string, draft: string, editable: Definition, normalized: Definition, n: nat,
                          digest: string, freshId: string, user: string)
    requires t in s.teams && draft in s.versions
    ensures OnlyPublishes(s, Advanced(s, t, draft, editable, normalized, n, digest, freshId, user), Some(draft))
  {
    hide DefinitionJson, MemberRecords;
  }

  /** Publications see a platform whose tools and skills are found by the names they carry. */
  ghost predicate WellKeyed(steps: seq<Step>) {
    forall i :: 0 <= i < |steps| && steps[i].Publish? ==>
                  ToolsKeyed(steps[i].p.platform) && SkillsKeyed(steps[i].p.platform)
  }

  ghost predicate AllRunnable(h: Hash, s: Store) {
    forall id :: id in s.versions && s.versions[id].status == Published ==> Runnable(h, s.versions[id])
  }

  lemma PublishKeepsRunnable(h: Hash, s: Store, t: string, p: Publication)
    requires Sound(s) && HexDigests(h) && ToolsKeyed(p.platform) && SkillsKeyed(p.platform)
    requires AllRunnable(h, s) && TeamPublished(h, s, t, p).Ok?
    ensures AllRunnable(h, TeamPublished(h, s, t, p).value)
  {
    hide Gather, Runnable, EverySkillAnswers, TeamPublished, Sound, PublishedRow, TrustedRecord, Advanced, Digest,
         TrustedJson, ToolsKeyed, SkillsKeyed, DraftOf;
    var id, d, cs := PublishRuns(h, s, t, p);
    PublishTouchesDraft(h, s, t, p);
    EverySkillFound(p.platform, p.ceilings, p.scope, s.versions[id].definition, d, cs);
  }

  /** After any history of publications on well-keyed platforms every published version can be run. */
  lemma {:induction false} EveryPublishedRuns(h: Hash, steps: seq<Step>)
    requires HexDigests(h) && WellKeyed(steps)
    ensures AllRunnable(h, Run(h, EMPTY, steps))
  {
    hide Sound, TeamHolds, Runnable, TeamPublished, Apply, ToolsKeyed, SkillsKeyed;
    if steps != [] {
      var n := |steps| - 1;
      var s, step := Run(h, EMPTY, steps[..n]), steps[n];
      EveryPublishedRuns(h, steps[..n]);
      HistoryHolds(h, steps[..n], step.t);
      if Apply(h, s, step).Ok? {
        if step.Publish? {
          assert Apply(h, s, step) == TeamPublished(h, s, step.t, step.p) by {
            ApplyPublish(h, s, step);
          }
          PublishKeepsRunnable(h, s, step.t, step.p);
        } else {
          OtherStepPublishes(h, s, step);
        }
      }
    }
  }

  lemma ApplyPublish(h: Hash, s: Store, step: Step)
    requires step.Publish?
    ensures Apply(h, s, step) == TeamPublished(h, s, step.t, step.p)
  {
  }

  // ---------- choosing the version of a run ----------

  /**
   A run can be started exactly when the team is in scope and enabled; it uses the newest version, and the digest it
   is given is the one a check of that version will compute.
   */
  lemma ResolvesExactlyWhen(h: Hash, s: Store, scope: Scope, t: string, draft: string, ids: seq<string>)
    requires TeamRowsHold(s, t, draft, ids) && AllRunnable(h, s)
    ensures ResolveForRun(h, s, scope, t).Ok? <==> InScope(s, scope, t) && s.teams[t].enabled
    ensures ResolveForRun(h, s, scope, t).Ok? ==>
              var (id, digest) := ResolveForRun(h, s, scope, t).value;
              && ids != [] && id == ids[|ids| - 1]
              && IsPublished(s.versions, t, id) && s.versions[id].version == |ids|
              && Runnable(h, s.versions[id]) && s.versions[id].digest == Some(digest)
              && Digest(h, s.versions[id].definition) == digest
  {
    if ids != [] {
      assert IsPublished(s.versions, t, ids[|ids| - 1]);
      RunnableDigest(h, s.versions[ids[|ids| - 1]]);
    }
  }

  lemma RunnableDigest(h: Hash, row: VersionRow)
    requires Runnable(h, row)
    ensures row.digest == Some(Digest(h, row.definition)) && row.digest.value != ""
  {
  }

  /** Enabling a team lets it be run, disabling stops that, and neither changes which version is used. */
  lemma ToggleDecidesRuns(h: Hash, s: Store, scope: Scope, t: string, enabled: bool, user: string, draft: string,
                          ids: seq<string>)
    requires TeamRowsHold(s, t, draft, ids) && AllRunnable(h, s) && Toggled(s, scope, t, enabled, user).Ok?
    ensures var after := Toggled(s, scope, t, enabled, user).value;
            && (ResolveForRun(h, after, scope, t).Ok? <==> enabled)
            && (enabled && s.teams[t].enabled ==> ResolveForRun(h, after, scope, t) == ResolveForRun(h, s, scope, t))
  {
    var after := Toggled(s, scope, t, enabled, user).value;
    assert TeamRowsHold(after, t, draft, ids);
    ResolvesExactlyWhen(h, after, scope, t, draft, ids);
  }
}
