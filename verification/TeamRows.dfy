/**
 Rows of a team, its versions and their members (backend/app/collaboration/models.py).  A version row carries
 its member rows, which no other version shares.
 */
module TeamRows {
  import opened Outcomes
  import opened Json
  import opened TeamDefinition

  datatype Status = Draft | Published

  datatype MemberRow = MemberRow(
    agentId: string,
    digest: Option<string>,
    agent: Json,
    role: string,
    responsibility: string,
    position: int,
    allow: Whitelists)

  datatype VersionRow = VersionRow(
    teamId: string,
    version: nat,
    status: Status,
    definition: Json,
    allow: Whitelists,
    settings: Settings,
    digest: Option<string>,
    publishedBy: Option<string>,
    members: seq<MemberRow>)

  datatype TeamRow = TeamRow(
    unitId: string,
    projectId: string,
    name: string,
    description: string,
    enabled: bool,
    draftRevision: int,
    publishedVersion: Option<string>,
    updatedBy: string)

  const NO_WHITELISTS := Whitelists([], [], [])
  const FRESH_SETTINGS := Settings(1, 1, 1, "fail_fast", None)

  /** The draft row a new team gets. */
  function FreshDraft(teamId: string): VersionRow {
    VersionRow(teamId, 0, Draft, Obj([]), NO_WHITELISTS, FRESH_SETTINGS, None, None, [])
  }

  function MemberRecord(m: Member, position: int): MemberRow {
    MemberRow(
      m.agentId,
      if m.captured.Some? then Some(m.captured.value.digest) else None,
      if m.captured.Some? then m.captured.value.agent else Null,
      m.role, m.responsibility, position, m.allow)
  }

  function MemberRecords(ms: seq<Member>): (r: seq<MemberRow>)
    ensures |r| == |ms|
    ensures forall i :: 0 <= i < |ms| ==> r[i] == MemberRecord(ms[i], i)
  {
    seq(|ms|, i requires 0 <= i < |ms| => MemberRecord(ms[i], i))
  }

  /** `_replace_draft_definition`: the dictionary, the columns that mirror it, and fresh member rows. */
  function ReplaceDefinition(row: VersionRow, d: Definition): VersionRow {
    row.(definition := DefinitionJson(d),
         allow := d.allow,
         settings := d.settings,
         members := MemberRecords(Everyone(d)))
  }

  /** What publishing leaves of a draft row: the given definition, numbered, signed and no longer a draft. */
  function PublishedFrom(draft: VersionRow, d: Definition, version: nat, digest: string, user: string): VersionRow {
    ReplaceDefinition(draft, d).(
      version := version, status := Published, digest := Some(digest), publishedBy := Some(user))
  }
}
