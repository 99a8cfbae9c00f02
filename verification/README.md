# A verified model of the platform's collaboration, runtime and audit core

This project models, in Dafny 4.11, the parts of the platform backend whose correctness does not show in any one
function: how a team becomes an immutable published version and why that version can be run later, what a digest
vouches for, how audit metadata is cut down to a budget without leaking, and the small concurrent protocols over
database rows (health leases, approvals, optimistic locking, the default agent, memberships, shared budgets).

`dafny verify --resource-limit 2000000 --verification-time-limit 0 dfyconfig.toml` checks everything.

## How it is built

Every database transaction is one atomic step, except where what happens inside one is the point: recorders that race
for a unique key (`Recorder`) and transactions that find no row to lock (`AgentDefault`). An operation is first a
function from the rows before to the rows after, or the exception it raises; where the source updates rows or fields
step by step there is a class (or a method with the source's loop) that does the same and is proved equal to that
function. Lemmas then speak of the functions. One kind says what the function gives in other words than its own: exactly
which inputs are accepted, and what stands in the result. The others speak of several calls and of every run of any
number of clients.

| files | what they hold |
|---|---|
| `Outcomes`, `Utf8`, `Json`, `Canonical`, `PyDict` | results, UTF-8, JSON values with a printer and a parser, the canonical text (sorted keys, compact separators), Python dictionaries kept as JSON objects |
| `JsonTree`, `Redaction`, `RedactionLaw` | bounded redaction of audit metadata, and what it shows said independently |
| `TeamDefinition`, `TeamService`, `TeamRows`, `TeamSnapshot` | normal form, trusted definition, rows, and the checks an execution snapshot makes |
| `TeamPublication`, `TeamCaptured`, `TeamRunnable`, `TeamVerified` | why the published row has the digest of the trusted definition, what is captured, exactly when it can be run, and what any verified row says |
| `TeamRepository`, `TeamHistory` | the operations on rows, and every history of them |
| `SnapshotProjection` | what a snapshot digest of each schema version vouches for |
| `McpHealth`, `Approvals`, `ApprovalHistory`, `ApprovalHandOff`, `ProviderStore`, `AgentDefault`, `Membership`, `ModelBudget` | protocols over rows, over all interleavings |
| `Harness`, `ArtifactPaging`, `ArtifactPath`, `Discovery`, `Recorder`, `Backfill` | loops, text, and recording an event once |

SHA-256 is an arbitrary function (`Hash`) whose results are 64 characters long where that matters. Nothing assumes it
to be injective: where a result needs two particular inputs not to collide, that is a hypothesis about those inputs or
an alternative in the conclusion. Resolvers of tools, skills, agents and providers are maps keyed by what is asked for.

## What was found to hold only under a condition

Each of these is proved as an if-and-only-if, and each comes with a case in which the property fails.

* A published version can be run exactly when every whitelisted skill carries the name some captured skill has in its
  manifest. Skills are looked up by directory and captured under their manifest name
  (`TeamRunnable.PublishedRunsExactlyWhen`, `TeamRunnable.RenamedSkillBreaks`). Creating and updating a skill demand that
  the two names are equal, and importing names the directory after the manifest or rewrites the manifest
  (`backend/app/skills/service.py` 165-192 and 266-286), so they differ only for a directory put or renamed there by
  hand, which reading a skill accepts.
* The service accepts a team name of white space only, and publication then fails in the repository
  (`TeamPublication.NormalizeTrusted`, `TeamHistory.PublishSucceedsExactlyWhen`).
* Scheduled health checks never overlap exactly when the interval is no shorter than the lease, and only because the
  due test belongs to the transaction that takes the lease (`McpHealth.NeverOverlapExactlyWhen`,
  `McpHealth.StaleReadingOverlaps`).
* Whatever happens between an approval and its resumption, the approved call is started exactly when the run was put back
  into the queue as often as it was taken from it, nobody started the call, and its arguments are those approved
  (`ApprovalHistory.ResumesExactlyWhen`). The gateway and the harness both park a run, and a decision between the two
  leaves the run waiting for an approval that is already given. Unless something assigns the run's status, that call never
  starts exactly when its one resumption was taken or forgotten, or no other approval of the run is pending and in time
  (`ApprovalHandOff.LostExactlyWhen`); whatever is assigned, it never starts exactly when the resumption was taken or
  forgotten (`ApprovalHandOff.NeverBeginsExactlyWhen`, `ApprovalHandOff.ReparkLosesApproval`).
* Where there is no default row there is nothing to lock, and a transaction that looked for it may act much later. An
  agent is threatened if it could be the default and such a transaction can still take that away. A default stays
  eligible whatever clients do exactly when no agent is threatened, and a normal return of the call that makes sure of a
  default can be relied on exactly when none is threatened while another could be the default
  (`AgentDefault.StaysEligibleExactlyWhen`, `AgentDefault.EnsuresExactlyWhen`, `AgentDefault.MissingPointerRace`).
* Reading back a written artifact gives the same text exactly when it has no CR, and normalising a path twice is
  normalising it once exactly when there was room for the root before it (`ArtifactPaging.ReadsBackExactlyWhen`,
  `ArtifactPath.IdempotentExactlyWhen`, `ArtifactPath.LongestIsNotIdempotent`).

The code calls its health due test and its lease update one transaction, but reads the row without a lock; the model
takes the transaction to be atomic and `McpHealth.StaleReadingOverlaps` shows what depends on that.

## Model

| member | source | states |
|---|---|---|
| Utf8.DecodeEncode | backend/app/audit/redaction.py:169-173 | decoding the UTF-8 bytes of any text gives the text back |
| Utf8.DecodeCut | backend/app/audit/redaction.py:169-173 | decoding any prefix of a text's bytes with errors ignored gives the longest whole-character prefix that fits |
| Utf8.EncodeCharIs | backend/app/audit/redaction.py:100-103 | how each character is written, by section 3 of RFC 3629: the length goes by its range, and lead and later bytes tell its code point |
| Json.ParsePrint | backend/app/audit/redaction.py:100-103 | the JSON printer (sections 4 to 7 of RFC 8259) is undone by a parser, for every value |
| Canonical.CanonDecidesEquality | backend/app/runtime/execution_snapshot.py:432-437 | values share a canonical form exactly when Python calls them equal |
| Canonical.BytesDecideEquality | backend/app/collaboration/service.py:46-50 | two dictionaries have the same canonical bytes exactly when they are equal, whatever their key order |
| Canonical.ParseDumps | backend/app/runtime/execution_snapshot.py:521-528 | parsing canonical text gives the canonical form back |
| JsonTree.ReplaceAtSizes | backend/app/audit/redaction.py:117-121 | replacing a string in a tree keeps the number of nodes and changes the string weight by exactly that string |
| JsonTree.ReplaceAtElsewhere | backend/app/audit/redaction.py:117-121 | every other place of the tree is left as it was |
| JsonTree.RemoveLastNodes | backend/app/audit/redaction.py:124-139 | removing the last container item removes exactly one node, and succeeds exactly when there is more than one |
| JsonTree.RemovesWhere | backend/app/audit/redaction.py:124-139 | what is removed: something from the last entry that holds anything, and from that in the same way, or else the last entry itself |
| Redaction.SanitizeBounds | backend/app/audit/redaction.py:76-97 | a sanitised value is within depth, length and width limits and has no key twice, whatever the input |
| Redaction.LocationsOrSpent | backend/app/audit/redaction.py:106-114 | there is a string to shorten exactly when some string is neither empty nor a marker |
| Redaction.LocationLocates | backend/app/audit/redaction.py:106-114 | every location points at the string it was found with |
| Redaction.Longest | backend/app/audit/redaction.py:166-168 | the location chosen is the first of those with the most bytes |
| Redaction.HalvedShortens | backend/app/audit/redaction.py:169-173 | halving a string's bytes gives the longest whole-character prefix that fits in half of them, strictly shorter unless it was empty |
| Redaction.TurnProgress | backend/app/audit/redaction.py:163-177 | every turn of the loop lowers node count and string bytes lexicographically |
| Redaction.FallbackUnreachable | backend/app/audit/redaction.py:163-177 | for a dictionary over budget a turn always succeeds, so the empty-dictionary fallback is never reached |
| Redaction.ShrinkFits | backend/app/audit/redaction.py:163-177 | the loop ends within the budget with the input shortened: strings cut to prefixes, trailing entries dropped, markers whole |
| Redaction.ShortensWellFormed | backend/app/audit/redaction.py:163-177 | shortening never makes a key occur twice |
| Redaction.RedactMetadata | backend/app/audit/redaction.py:142-177 | the in-place loop terminates and returns what the specification function gives, of which `RedactionLaw.RedactedShows` says what it holds |
| Redaction.RedactedFits | backend/app/audit/redaction.py:142-177 | every budget of at least two bytes is met, by the sanitised metadata shortened |
| Redaction.SanitizeHidesSecrets | backend/app/audit/redaction.py:42-97 | inputs that differ only under sensitive keys are sanitised alike, at any depth |
| Redaction.RedactionHidesSecrets | backend/app/audit/redaction.py:142-177 | such inputs give the same result through selection, sanitising, cutting and the whole loop |
| RedactionLaw.SensitiveExactlyWhen | backend/app/audit/redaction.py:42-50 | a key counts as sensitive exactly when its folded text is none of the three counters and has a listed marker somewhere in it |
| RedactionLaw.EscapeTells | backend/app/audit/redaction.py:76-97 | an escaped text has no markup in it and can be unescaped to what it was |
| RedactionLaw.RedactedShows | backend/app/audit/redaction.py:76-177 | said without the functions of the code: under each allowed key stands what the last entry with that clipped key gives, `[REDACTED]` exactly when the key tells a secret, else the value, the escaped basename cut at 512, or the marker of its limit, at every depth; the result is that, shortened, and as it is when it fits |
| TeamDefinition.NormalizeMember | backend/app/collaboration/repository.py:367-392 | an accepted member is normal for its role |
| TeamDefinition.ReadRoster | backend/app/collaboration/repository.py:324-338 | an accepted roster has a supervisor first, at least one member, and no agent twice |
| TeamDefinition.NormalizeNormal | backend/app/collaboration/repository.py:324-416 | whatever normalising accepts satisfies every demand on stored definitions |
| TeamDefinition.MemberAcceptedExactlyWhen | backend/app/collaboration/repository.py:367-392 | which dictionaries are accepted as members, said of their keys; a team is never one |
| TeamDefinition.AcceptedExactlyWhen | backend/app/collaboration/repository.py:324-416 | which dictionaries are accepted as definitions, said of their keys |
| TeamDefinition.NormalizeFillsIn | backend/app/collaboration/repository.py:339-364 | what a definition leaves out: empty whitelists, fail-fast, no policy, no labels |
| TeamDefinition.NormalizeMemberReads | backend/app/collaboration/repository.py:367-392 | members that agree on seven keys and on the digest normalise alike: nothing else has any influence, not even the role claimed |
| TeamDefinition.NormalizeOlderKey | backend/app/collaboration/repository.py:371-371 | a member with its digest under the older key is the same member once that key is renamed to the newer |
| TeamDefinition.NormalizeStored | backend/app/collaboration/repository.py:324-416 | normalising is a fixpoint on every stored definition |
| TeamDefinition.NormalizeIdempotent | backend/app/collaboration/repository.py:324-416 | normalising twice is normalising once, for every input it accepts |
| TeamService.CollectByAgent | backend/app/collaboration/service.py:280-361 | the capturing loop fills its dictionary with each agent's capture, or raises the first agent's exception |
| TeamSnapshot.SelectAll | backend/app/runtime/execution_snapshot.py:680-700 | a selection succeeds exactly when every id is found with the right shape |
| TeamPublication.TrustedMemberEqual | backend/app/collaboration/service.py:371-377 | a trusted member equals the stored form of the captured member, although its keys are in another order |
| TeamPublication.TrustedEqualsStored | backend/app/collaboration/service.py:244-250 | the digest taken of the trusted definition is the digest of what the repository stores |
| TeamPublication.NormalizeTrusted | backend/app/collaboration/repository.py:200-211 | the repository keeps a trusted definition as it is, unless its name is white space only |
| TeamRunnable.CapturesExactlyWhen | backend/app/collaboration/service.py:280-361 | an agent is captured exactly when it belongs to the unit and project, written out, and everything it is bound to may be used |
| TeamRunnable.ProjectAgentStaysHome | backend/app/collaboration/service.py:422-430 | an agent of a project is captured in no other unit or project, and in its own exactly when it is enabled and usable |
| TeamRunnable.CommonAgentGoesWhereListed | backend/app/collaboration/service.py:431-440 | a common agent is captured only in projects it lists, or everywhere if it lists `*` alone |
| TeamRunnable.WhitelistsHoldExactlyWhen | backend/app/collaboration/service.py:529-574 | the whitelist check says exactly that members stay within team and agent, and the team within its agents |
| TeamRunnable.GathersExactlyWhen | backend/app/collaboration/service.py:268-420 | the service gathers a draft exactly when an independent description of publishable drafts holds, with limits and whitelists written out |
| TeamRunnable.PublishedBelongs | backend/app/collaboration/service.py:268-527 | whatever is published consists of enabled agents of exactly this unit and project or common ones that list it, and exceeds none of the four limits |
| TeamRunnable.MemberVerifies | backend/app/runtime/execution_snapshot.py:738-766 | a captured member's row mirrors its dictionary, and passes exactly when its skills are found again |
| TeamRunnable.VersionVerifies | backend/app/runtime/execution_snapshot.py:721-779 | a row holding what was stored verifies exactly when each member does |
| TeamVerified.VerifiedMirrors | backend/app/runtime/execution_snapshot.py:721-779 | whatever rows stand beside a stored definition: they verify only if digest and columns repeat it and there is one member row for each member, in its place, that says what the definition says of it |
| TeamRunnable.PublishedVerifies | backend/app/runtime/execution_snapshot.py:721-779 | a published version passes verification exactly when every member's whitelisted skills answer |
| TeamRunnable.PoolSelects | backend/app/runtime/execution_snapshot.py:824-857 | team-wide selection succeeds exactly when every id is held by some captured agent |
| TeamRunnable.PublishedCapable | backend/app/runtime/execution_snapshot.py:824-857 | no team-wide tool or knowledge lookup misses; skills are found exactly when they answer |
| TeamRunnable.CapturedAgentHolds | backend/app/collaboration/service.py:334-344 | what a captured agent holds under each profile key |
| TeamCaptured.CaptureHolds | backend/app/collaboration/service.py:280-361 | what a captured agent holds under each of its keys: the platform's own values, the model it runs on, and the tools, skills and sources it is bound to |
| TeamCaptured.ToolHolds | backend/app/collaboration/service.py:488-505 | a captured tool holds the platform's values under each key |
| TeamCaptured.SkillHolds | backend/app/collaboration/service.py:465-486 | a captured skill holds the platform's values under each key |
| TeamCaptured.SnapshotsExactlyWhen | backend/app/runtime/execution_snapshot.py:657-719 | a member can be taken into a snapshot exactly when its digest is that of its agent, the texts of the agent are there, and each whitelisted tool, skill and source is in the agent in the right shape, said key by key |
| TeamRunnable.SnapshotHoldsCaptured | backend/app/runtime/execution_snapshot.py:657-719 | a member snapshot holds, id by id, the very tools and knowledge sources of the platform at publication, and skills the agent was bound to under the names asked for |
| TeamRunnable.TeamHoldsCaptured | backend/app/runtime/execution_snapshot.py:824-857 | the team-wide lists hold, id by id, the platform's tools and knowledge sources, and skills that some captured agent was bound to under the name asked for |
| TeamRunnable.PublishedRunsExactlyWhen | backend/app/runtime/execution_snapshot.py:721-857 | a published version can be run exactly when every whitelisted skill answers; nothing else can fail |
| TeamRunnable.EverySkillFound | backend/app/collaboration/service.py:307-320 | with skills named as they are found, every whitelisted skill answers |
| TeamRunnable.RenamedSkillBreaks | backend/app/skills/service.py:37-126 | in any project, with agents of that project and a skill that each have acceptable names, literals, lengths and availability, a concrete team that is published and can never be run |
| TeamRunnable.ChangesAreNoticed | backend/app/runtime/execution_snapshot.py:721-727 | a verified version whose dictionary is replaced verifies again only if the two are equal or collide |
| TeamRepository.LatestIsCount | backend/app/collaboration/repository.py:204-210 | the greatest version number is the number of published versions |
| TeamRepository.Database.Create | backend/app/collaboration/repository.py:29-60 | creates the team row and its draft, or changes nothing |
| TeamRepository.CreatesExactlyWhen | backend/app/collaboration/repository.py:29-60 | a team is created exactly when its ids are fresh and no team of the project has its name; disabled, with an empty draft |
| TeamRepository.Database.ReplaceDraft | backend/app/collaboration/repository.py:284-302 | replaces dictionary, mirrored columns and member rows, and nothing else |
| TeamRepository.Database.SaveDraft | backend/app/collaboration/repository.py:127-156 | saves under the expected revision only, and counts the revision up |
| TeamRepository.SavesExactlyWhen | backend/app/collaboration/repository.py:127-156 | a draft is saved exactly when it was read at the present revision and can be normalised; what is left of the rows, and which exception is met otherwise |
| TeamRepository.Database.PublishVersion | backend/app/collaboration/repository.py:175-244 | turns the draft row into the next version and puts a fresh draft in its place |
| TeamRepository.Database.Publish | backend/app/collaboration/service.py:230-260 | publishes the trusted definition, or rolls everything back |
| TeamRepository.Database.SetEnabled | backend/app/collaboration/service.py:576-590 | enables only a team that has a published version |
| TeamRepository.TogglesExactlyWhen | backend/app/collaboration/service.py:576-590 | a team of the scope is disabled always, and enabled exactly when it has a published version |
| TeamRepository.Database.Update | backend/app/collaboration/service.py:211-218 | changes name and description and nothing else |
| TeamRepository.RenamesExactlyWhen | backend/app/collaboration/service.py:211-218 | a team of the scope keeps its name or takes one no team of the project has |
| TeamHistory.PublishLeaves | backend/app/collaboration/service.py:230-260 | the whole state a publication writes |
| TeamHistory.PublishSucceedsExactlyWhen | backend/app/collaboration/service.py:230-260 | publication goes through exactly when the draft gathers, fits, and the name is not blank |
| TeamHistory.HistoryHolds | backend/app/collaboration/repository.py:127-244 | after any history: one draft numbered 0, versions 1 to n without gaps, the team pointing at version n; the draft is the normal form of the last accepted save; the revision counts the saves, which were accepted under 1, 2, 3 and so on |
| TeamHistory.RunFrozen | backend/app/collaboration/models.py:154-157 | no published row or member row ever changes |
| TeamHistory.PublishedForever | backend/app/runtime/execution_snapshot.py:721-857 | after any further history a published row is there, unchanged, and as runnable as on the first day |
| TeamHistory.EveryPublishedRuns | backend/app/runtime/execution_snapshot.py:721-857 | in every history of publications on well-keyed platforms all published versions can be run |
| TeamHistory.ResolvesExactlyWhen | backend/app/collaboration/service.py:592-602 | a run can be resolved exactly when the team is in scope and enabled, and then to the newest version with the digest it verifies under |
| TeamHistory.ToggleDecidesRuns | backend/app/collaboration/service.py:576-602 | enabling a team lets it be run, disabling stops that, and neither changes the version used |
| SnapshotProjection.EqualByLookups | backend/app/runtime/execution_snapshot.py:432-437 | dictionaries are equal exactly when every key looks up the same |
| SnapshotProjection.SkillProjected | backend/app/runtime/execution_snapshot.py:374-387 | skills are projected alike exactly when they agree on name and, if any is set, on all resource fields |
| SnapshotProjection.ToolProjected | backend/app/runtime/execution_snapshot.py:361-393 | tools are projected alike exactly when they agree on the eight frozen fields |
| SnapshotProjection.MemberProjected | backend/app/runtime/execution_snapshot.py:409-416 | team members are projected alike exactly when they agree on the projected lists and everything else |
| SnapshotProjection.ActorProjected | backend/app/runtime/execution_snapshot.py:400-424 | actors are projected alike exactly when they agree, the kind not counting up to version 3 |
| SnapshotProjection.SameBytesExactlyWhen | backend/app/runtime/execution_snapshot.py:420-437 | two payloads have the same bytes exactly when their versions are one and they agree on what it froze |
| SnapshotProjection.VersionIs | backend/app/runtime/execution_snapshot.py:420-430 | which schema version a payload is digested under |
| SnapshotProjection.VerifiesExactlyWhen | backend/app/runtime/execution_snapshot.py:440-442 | a stored digest vouches for a payload exactly when it agrees with the stored one, collisions aside |
| SnapshotProjection.SkillNoticedExactlyWhen | backend/app/runtime/execution_snapshot.py:373-387 | up to version 4 a changed skill changes the bytes exactly when its name or its resources changed |
| McpHealth.ClientRow.AcquireLease | backend/app/mcp/health_service.py:25-34 | takes a free or lapsed lease and changes nothing otherwise |
| McpHealth.ClientRow.RecordResult | backend/app/mcp/health_service.py:41-66 | writes the outcome, clears the lease, counts failures and sets the status |
| McpHealth.ClippedIs | backend/app/mcp/health_service.py:41-66 | an empty message counts as none, and of a longer one the first 500 characters are kept |
| McpHealth.ClientRow.BeginCheck | backend/app/mcp/scheduler.py:65-68 | begins exactly when due at the first reading of the clock and free at the second |
| McpHealth.StepIs | backend/app/mcp/scheduler.py:65-82 | what beginning, ending and abandoning a check, a manual test, and a deletion do to the running checks and to what was recorded: a check begins exactly when the row is there, the reading is due, and the lease is free |
| McpHealth.RunGuarded | backend/app/mcp/scheduler.py:65-82 | the running check holds its lease, or a result was recorded since it began |
| McpHealth.NeverOverlapExactlyWhen | backend/app/mcp/scheduler.py:65-82 | two scheduled checks of a client never overlap exactly when the interval is no shorter than the lease |
| McpHealth.OverlapRuns | backend/app/mcp/service.py:280-297 | with a shorter interval a manual test lets two checks overlap |
| McpHealth.StaleReadingOverlaps | backend/app/mcp/scheduler.py:65-68 | acting on a due test from an earlier transaction overlaps whatever the interval |
| McpHealth.RunCounted | backend/app/mcp/health_service.py:41-66 | after any run the row tells what was recorded: failures since the last success and the status they fix, last check, last success, last error |
| Approvals.ApprovalDesk.CheckPending | backend/app/approvals/service.py:136-148 | which exception a decision meets, and that the row is marked expired in that one case and no row is changed in any other |
| Approvals.ApprovalDesk.Approve | backend/app/approvals/service.py:150-163 | the row after an approval, or the exception |
| Approvals.ApprovalDesk.ApproveEndpoint | backend/app/approvals/router.py:42-71 | the decision and the run's way back to the queue are both kept, or both rolled back |
| Approvals.ApprovalDesk.RejectEndpoint | backend/app/approvals/router.py:73-85 | a rejection as the specification has it, kept or rolled back; `Approvals.RejectsExactlyWhen` says when and what |
| Approvals.ApprovesExactlyWhen | backend/app/approvals/router.py:42-71 | an approval goes through exactly when the row is in this unit and project and pending, the user holds the role and did not ask, time is left, the call has the approved arguments, and the run waits; it then writes this row and puts the run back, and nothing else |
| Approvals.ApproveFails | backend/app/approvals/service.py:122-163 | which exception an approval meets otherwise, each exactly when, in the order of the tests |
| Approvals.RejectsExactlyWhen | backend/app/approvals/service.py:176-187 | a rejection goes through exactly when the row is in this unit and project and pending and the user holds the role and did not ask; it writes decision, decider, time and reason to this row alone; which exception it meets otherwise |
| Approvals.ApprovalDesk.PauseForApproval | backend/app/tools/gateway.py:527-569 | invocation, approval and run status are written together, for a running run only |
| Approvals.ParksExactlyWhen | backend/app/tools/gateway.py:527-569 | a run is parked exactly when it is running and the ids are fresh: waiting run, waiting call, and a pending approval that says who asked, for what, in which project, until when |
| Approvals.ApprovalDesk.ResumeApproval | backend/app/conversations/dispatcher.py:45-154 | starts the call, fails the run, or does nothing |
| Approvals.ResumedExactly | backend/app/conversations/dispatcher.py:45-154 | a resumption acts exactly when approval, run and call are approved, queued and waiting: it starts the call if admitted and else fails the run, or meets the exception of a foreign scope or changed arguments |
| Approvals.CallEndsExactlyWhen | backend/app/tools/gateway.py:572-650 | ending a call records its outcome, and a failed one fails the run, exactly while it was started and the run is queued or waiting |
| ApprovalHistory.DecisionsAreKept | backend/app/approvals/service.py:150-187 | over any interleaving what was asked stays, and a decided approval never changes again |
| ApprovalHistory.DecisionsAreEarned | backend/app/approvals/service.py:122-187 | every approval no longer pending was approved or rejected, never left expired, by another user with the assignee role |
| ApprovalHistory.ApprovalsWereAsked | backend/app/approvals/service.py:54-88 | every approval was asked for by parking a running run, and still says what was asked, the digest of its arguments included |
| ApprovalHistory.ApprovalsNeedEntries | backend/app/approvals/router.py:45-54 | approved approvals of a run never outnumber its entries into waiting, which are the places of the history where it went from another status to waiting |
| ApprovalHistory.EndedRunsStay | backend/app/conversations/dispatcher.py:130-154 | parking, deciding, resuming and finishing never move a run that has ended |
| ApprovalHistory.StartedOnce | backend/app/tools/gateway.py:572-592 | a call is started at most once |
| ApprovalHistory.BegunWasApproved | backend/app/approvals/service.py:165-174 | behind every call that began stands an approved approval for exactly its arguments |
| ApprovalHistory.RunPaired | backend/app/approvals/service.py:54-88 | over any run each approval has a call of its own, and a call that has begun was approved |
| ApprovalHistory.ResumesExactlyWhen | backend/app/conversations/dispatcher.py:45-154 | whatever all clients do between an approval and its resumption, the call starts exactly when the resumption is in scope, the run left the queue as often as it came back, nobody started the call, and its last arguments have the approved digest |
| ApprovalHandOff.PlayedIsRun | backend/app/approvals/router.py:42-71 | with a clock that never goes back and one resumption per approval, the rows go through a run of the steps above, so all of it holds here |
| ApprovalHandOff.LostExactlyWhen | backend/app/runtime/harness.py:219-234 | in any reachable state with an approved call whose run waits: nothing ever begins it, unless it assigns the run's status, exactly when its resumption is no longer outstanding or no other approval of the run is pending and expires after the present time |
| ApprovalHandOff.NeverBeginsExactlyWhen | backend/app/conversations/dispatcher.py:208-255 | an approved call that has not begun never does, whatever is done, exactly when its resumption is no longer outstanding |
| ApprovalHandOff.ReparkLosesApproval | backend/app/runtime/harness.py:219-234 | from no rows, for any call: parked by the gateway, approved in time, parked again by the harness, and lost, for good once a worker has taken the resumption |
| ProviderStore.Tables.SaveEntries | backend/app/model_providers/store.py:73-89 | the loop over entries accepts and writes exactly what the specification says, in any order |
| ProviderStore.Tables.Save | backend/app/model_providers/store.py:47-71 | writes all changed keys, or none |
| ProviderStore.SaveOverwritesOnlyWhatWasLoaded | backend/app/model_providers/store.py:47-89 | after any interleaving a save overwrites a key only while it holds the value that client loaded, and leaves the rest alone |
| ProviderStore.LoadIs | backend/app/model_providers/store.py:30-45 | loading reads every value and version, an unset active model besides, and saving what was loaded writes nothing |
| ProviderStore.FreshSaveSucceeds | backend/app/model_providers/store.py:30-89 | after any interleaving a client that has just loaded can save anything, and its loading disturbs no one |
| ProviderStore.UnloadedInserts | backend/app/model_providers/store.py:57-89 | a client that loaded nothing can only insert keys that are not there |
| ProviderStore.SecondSaveExactlyWhen | backend/app/model_providers/store.py:73-89 | of two saves from one base the second goes through exactly when it changes no key the first did |
| ProviderStore.DisjointSavesCommute | backend/app/model_providers/store.py:73-89 | saves of different keys from one base give the same rows in either order |
| ProviderStore.VersionsCountWrites | backend/app/model_providers/store.py:73-89 | a key's version is the number of saves that changed it; none is lost |
| AgentDefault.Dedup | backend/app/agents/store.py:235-240 | removing duplicates keeps every tool once |
| AgentDefault.AgentTables.SetDefaultId | backend/app/agents/store.py:164-201 | moves the default row under the expected version to an eligible agent only |
| AgentDefault.AgentTables.SetEnabledAgent | backend/app/agents/store.py:253-274 | never disables the default |
| AgentDefault.AgentTables.UpdateAgent | backend/app/agents/store.py:203-222 | never takes the enabled flag from the default |
| AgentDefault.AgentTables.DeleteAgent | backend/app/agents/store.py:332-356 | never deletes the default or the built-in agent |
| AgentDefault.AgentTables.RepairBuiltinAgent | backend/app/agents/store.py:224-251 | enables the agent and adds the required tools, once each |
| AgentDefault.MendedHolds | backend/app/agents/store.py:224-251 | a repaired agent is enabled, has its own and the required tools, once each, and is not changed by repairing again |
| AgentDefault.SetsDefaultExactlyWhen | backend/app/agents/store.py:164-201 | the default row moves exactly when the version is the expected one and the agent is there, enabled, and for every project; to what, and which exception is met otherwise |
| AgentDefault.CreatesExactlyWhen | backend/app/agents/store.py:373-409 | an agent is created exactly when it is for one project, for listed projects, or for every project, and its id is free; never pinned, and otherwise as given |
| AgentDefault.StepMovesPointer | backend/app/agents/store.py:164-201 | whatever a transaction saw, the default row changes only to an eligible agent, and its version then grows by one |
| AgentDefault.RunNamesEligible | backend/app/agents/store.py:128-372 | over any transactions that read the row they act on, a default row that names an eligible agent goes on naming one |
| AgentDefault.VersionTellsApart | backend/app/agents/store.py:164-201 | over everything clients do, the row's version never falls and tells its values apart |
| AgentDefault.StaysEligibleExactlyWhen | backend/app/agents/store.py:90-274 | transactions that found no default row may act at any later time: an eligible default stays eligible over all runs exactly when no agent is threatened |
| AgentDefault.SafeExactlyWhen | backend/app/agents/store.py:90-98 | with a default row, none is threatened exactly when nothing pending takes a possible default away; without one, exactly when no agent could be the default |
| AgentDefault.MissingPointerRace | backend/app/agents/store.py:90-98 | a disabling that saw no default row leaves the new default disabled |
| AgentDefault.EnsuresExactlyWhen | backend/app/agents/service.py:254-276 | from any rows and pending transactions, a normal return leaves an eligible default whatever other clients do, exactly when no agent is threatened while another with a non-empty id could be the default |
| AgentDefault.BuiltinKeepsExactlyWhen | backend/app/agents/service.py:216-252 | making sure of the built-in agent loses no eligible default to other clients, exactly when nothing harmful is pending on another agent |
| AgentDefault.AgentTables.EnsureBuiltinRecord | backend/app/agents/service.py:216-252 | with other clients acting between its transactions does what the specification says: keeps an eligible default under that condition, and left alone writes the mended built-in agent and nothing else |
| AgentDefault.AgentTables.EnsureDefaultAgent | backend/app/agents/service.py:254-276 | the three attempts do what the specification says, so a normal return leaves an eligible default under that condition; left alone it returns normally exactly when there is one or the built-in agent can be it |
| Membership.Guard | backend/app/identity/catalogue.py:273-324 | the loops accept exactly the batches the specification accepts |
| Membership.ExpectedMarks | backend/app/identity/catalogue.py:305-321 | the sets the loops build are the active memberships after the flush |
| Membership.AcceptsExactlyWhen | backend/app/identity/catalogue.py:273-324 | a batch is accepted exactly when every user it touches has at most one active membership after the flush |
| Membership.NeverTwoActive | backend/app/identity/catalogue.py:273-329 | however many flushes there are, no user has two active memberships |
| ModelBudget.SharedBudget.ReserveInvocation | backend/app/runtime/gateway_model.py:49-55 | hands out the next number, or refuses and changes nothing |
| ModelBudget.SharedBudget.ConsumeResponse | backend/app/runtime/gateway_model.py:57-64 | adds to both counters, or to neither |
| ModelBudget.ConsumesExactlyWhen | backend/app/runtime/gateway_model.py:57-64 | a response is consumed exactly when both sums stay within their limits, of which the one on tools is looked at first |
| ModelBudget.BudgetHolds | backend/app/runtime/gateway_model.py:39-64 | over any interleaving exactly the numbers 0, 1, 2 and so on are handed out, once each, up to the limit, and totals stay within theirs |
| ModelBudget.KeysDistinct | backend/app/runtime/gateway_model.py:190-197 | idempotency keys are equal exactly when member and sequence number are |
| Harness.BuildMessages | backend/app/runtime/harness.py:242-287 | the opening transcript, with every replayed call followed by its reply |
| Harness.MakeCalls | backend/app/runtime/harness.py:173-179 | calls are made in order until the first that gives no value, exactly that one is the failure, and the replies of those before it follow |
| Harness.TakeTurn | backend/app/runtime/harness.py:117-180 | where one answer leads, each exactly when: another turn only if there are calls, recorded, with a gateway, before the fourth iteration, within eight in all, and each gives a value; or the end of the run and with which code |
| Harness.Execute | backend/app/runtime/harness.py:91-240 | for every behaviour of model and tools: at most 4 model and 8 tool calls, a well-formed transcript at each, usage summed over reported counts, completion exactly on a final answer that could be recorded, parking exactly when the last call made asks for approval, and the exact code of every other end |
| Harness.EndsExactlyWhen | backend/app/runtime/harness.py:117-180 | when an answer ends the run done, parked, with the limit code, or with the failure code, in terms of limits and of the first call that failed |
| Harness.SumExactly | backend/app/runtime/harness.py:91-240 | usage is absent exactly when no answer reported it, and otherwise the sum of what was reported |
| Harness.OpeningItems | backend/app/runtime/harness.py:242-287 | conversation and replays keep their order; three roles are shown, and completed calls with a result are replayed with it |
| Harness.LatestAre | backend/app/runtime/harness.py:242-287 | of a long conversation the last hundred messages are shown |
| ArtifactPaging.LinesJoin | backend/app/runtime/artifact_backend.py:143-143 | the lines joined are the text |
| ArtifactPaging.LineCut | backend/app/runtime/artifact_backend.py:143-149 | no line ends between a CR and its LF |
| ArtifactPaging.SplitLinesAre | backend/app/runtime/artifact_backend.py:143-143 | no line is empty, a line break (CR LF being one) stands only at the end of a line, and each line before the last ends in one |
| ArtifactPaging.LinesAreUnique | backend/app/runtime/artifact_backend.py:143-143 | any cutting of a text with these properties is the one the code makes |
| ArtifactPaging.ReadsLines | backend/app/runtime/artifact_backend.py:115-150 | reading a stored text from line k gives its lines k onwards, as many as asked for, with newlines; the offset is refused exactly when a text that is not empty has no more than k lines |
| ArtifactPaging.NewlinesOfLine | backend/app/runtime/artifact_backend.py:149-149 | what turning line ends into newlines does to a line, for each way it may end |
| ArtifactPaging.NewlinesAppend | backend/app/runtime/artifact_backend.py:149-149 | replacing line ends goes through every such cut |
| ArtifactPaging.PagesCoverText | backend/app/runtime/artifact_backend.py:115-150 | pages of any positive sizes that cover the lines give, joined, the whole text with newlines |
| ArtifactPaging.StoredPagesCoverText | backend/app/runtime/artifact_backend.py:115-150 | consecutive reads of stored bytes, of any positive sizes that cover the lines, give the whole text with newlines |
| ArtifactPaging.RefusedExactlyWhen | backend/app/runtime/artifact_backend.py:137-140 | a read is refused as undecodable, whatever page it asks for, exactly when the bytes encode no text |
| ArtifactPaging.ReadsBackExactlyWhen | backend/app/runtime/artifact_backend.py:102-150 | a written text is read back as it was exactly when it has no CR |
| ArtifactPaging.Grep | backend/app/runtime/artifact_backend.py:197-224 | the first matches of all files in order, and truncated exactly when there were more |
| ArtifactPaging.MatchesAre | backend/app/runtime/artifact_backend.py:197-224 | the matches in a file are exactly the lines that include the pattern, with their numbers, in order |
| ArtifactPaging.CappedAre | backend/app/runtime/artifact_backend.py:197-224 | no more matches are given than asked for, the first ones, and truncation is reported exactly when some are missing |
| ArtifactPath.NormalizesUnderRoot | backend/app/runtime/artifact_backend.py:302-326 | normalising only accepts or refuses a path under the root; it never rewrites one |
| ArtifactPath.AcceptedExactlyWhen | backend/app/runtime/artifact_backend.py:302-326 | which paths are accepted, said of their characters and parts, and what each becomes |
| ArtifactPath.NormalizedIsContained | backend/app/runtime/artifact_backend.py:302-326 | a normalised path lies under the root and has no empty, `.` or `..` component |
| ArtifactPath.IdempotentExactlyWhen | backend/app/runtime/artifact_backend.py:302-326 | normalising again gives the same path exactly when the input is under the root, is the root itself, or is short enough to be accepted with the root before it |
| ArtifactPath.LongestIsNotIdempotent | backend/app/runtime/artifact_backend.py:302-326 | an accepted path whose normal form is refused |
| Discovery.Tools.Sync | backend/app/mcp/discovery_service.py:42-81 | the loop over listed tools leaves the rows and the four sets the specification gives |
| Discovery.DiffPartitions | backend/app/mcp/discovery_service.py:49-81 | added, changed and unchanged partition the listing; removed is the rest of what was stored |
| Discovery.NormalizeIs | backend/app/mcp/discovery_service.py:29-35 | the schema is the one under the first of two names that holds more than nothing, or that of any object |
| Discovery.LatestIs | backend/app/mcp/discovery_service.py:43-43 | the last listed tool of each non-empty name counts, and no other |
| Discovery.RepeatChangesNothing | backend/app/mcp/discovery_service.py:49-71 | a repeated listing adds and changes nothing |
| Discovery.RunHolds | backend/app/mcp/discovery_service.py:42-81 | after any listings a tool is available exactly when it is in the last one, and its version is one more than the times it was reported changed |
| Discovery.DigestsFit | backend/app/mcp/discovery_service.py:37-67 | a stored digest is always that of the description and schema stored beside it |
| Discovery.ListedAsStored | backend/app/mcp/discovery_service.py:37-67 | a listed tool is stored as it was listed, collisions of the digest aside |
| Discovery.ChangeUnpublishes | backend/app/mcp/discovery_service.py:55-71 | a tool stays published exactly when the listing reports it unchanged |
| Discovery.PublishedExactlyWhen | backend/app/mcp/discovery_service.py:42-81 | after any run a tool is published exactly when it was reviewed as such and every listing since reported it unchanged |
| Recorder.RecordersAgree | backend/app/audit/recorder.py:176-228 | over any interleaving of any number of recorders, some rolled back: one event under the key, never replaced, returned by every recorder that has returned and whose own insertion is not open, inserted by exactly one unless it was there, and the second look never misses |
| Recorder.EndedTogether | backend/app/audit/recorder.py:216-228 | once all have ended, those not rolled back returned the same event, which is in the table |
| Recorder.Alone | backend/app/audit/recorder.py:176-228 | a recorder nobody disturbs inserts exactly when the key is missing and returns what is then there |
| Recorder.EndsSay | backend/app/audit/recorder.py:176-228 | a commit makes the open insertion the event and a rollback undoes everything but what was committed |
| Backfill.BatchAfter | backend/app/audit/backfill.py:37-46 | the query after the last id seen gives exactly the next runs in order |
| Backfill.FilledHas | backend/app/audit/backfill.py:51-82 | afterwards every run has one event under its key: the one that was there, or its own |
| Backfill.EventSays | backend/app/audit/backfill.py:10-82 | the event of a run carries its id and time, its key, and for each run status the audit status and the error code |
| Backfill.BackfillRuns | backend/app/audit/backfill.py:26-86 | for every batch size the loop ends, visits each run once in order, and returns the number of keys that were missing; after a crash the table holds exactly the batches committed |
| Backfill.RerunReachesSame | backend/app/audit/backfill.py:26-86 | after a crash at any batch a rerun reaches the table an undisturbed call leaves |
| Backfill.RerunInsertsRest | backend/app/audit/backfill.py:26-86 | the two together insert what one undisturbed call inserts |

## Left out

- Redaction works on tree values: the source replaces strings inside nested dictionaries in place, and aliasing between
  parts of the input is not modelled. The same holds for `_frozen_v4_projection` and the definition dictionaries, which
  the source copies before it changes them.
- Redaction.LocationLocates: a path is a list of positions where the source has keys and indices; in a dictionary
  without repeated keys the two name the same places.
- `os.path.basename` and `str.casefold` are arbitrary functions in `Redaction`; `redact_summary` with its regular
  expressions is not modelled.
- Canonical.CanonDecidesEquality: a floating-point number is known by the text Python prints for it; equality between `1`
  and `1.0` or `True` and `1`, which Python has and JSON text has not, and the inequality of NaN with itself are not
  modelled.
- Canonical.BytesDecideEquality: speaks of the same equality.
- Redaction.RedactedFits: strings here are sequences of Unicode scalar values. A Python string may hold lone surrogates,
  on which `_encoded_size` and the digests of teams and snapshots raise; such texts are not modelled anywhere.
- Discovery.Normalize: a listed description that is present as null is not modelled; the source keeps the null in the
  digest, while the column it is stored in takes none.
- Column length limits, nullability and foreign keys of the tables, beyond those named in the operations. A statement
  the database refuses rolls back like any exception.
- The texts of exceptions: one class is raised for many reasons, which the model tells apart by a word that nothing is
  proved about, as in `InvalidDefinition("tools")`.
- Permission checks, audit events written inside management operations, HTTP, server-sent events, storage clients,
  TLS, token handling and the frontend.
- TeamSnapshot.VerifyTeamVersion: the embedded files of a captured skill are not looked into (the service captures
  none), and knowledge sources turned into tools, which always validate, are not merged into the tool list.
- The snapshot row itself, its size limit and its expiry; the agent branch of `create`.
- TeamRepository.Database.Publish: the permission check and the audit event in the same transaction are not modelled.
- TeamHistory.EveryPublishedRuns: assumes tools and skills are found under the names they carry; the general condition
  is `TeamRunnable.PublishedRunsExactlyWhen`.
- SnapshotProjection.SameBytesExactlyWhen: speaks of dumped payloads, in which a team actor has a supervisor and an
  agent actor has none, and every tool has all its fields; a missing field counts as null.
- Re-creating an MCP client under the key of a deleted one while a check of the old one still runs, `release_lease`, and
  the marking of a client's tools as unavailable when it goes offline.
- ApprovalHandOff.LostExactlyWhen: the one resumption of an approval is held in memory and an approval whose process ends
  before submitting it has none; recovery at start-up takes up running runs only and is not modelled.
- TeamRunnable.RenamedSkillBreaks: binding a skill to an agent also demands that the project has published a skill of that
  name; published project skills are a store of their own and not part of the platform modelled.
- Approvals.ApprovalDesk.ResumeApproval: script tools that re-enter a sandbox, the team deadline and the authorization
  of team runs are one flag that says whether the call is admitted; `SandboxRunCoordinator` is not part of this model.
- Harness.Execute: audit rows, checkpoints of completed runs and stored result artifacts; the tool definitions shown to
  the model.
- `AgentStore.update` and `AgentStore.delete`, which guard nothing and are not used by the modelled flows, and agent
  workspaces on disk.
- ArtifactPaging.Grep: takes the lines of each file as `read` gives them, so at most the first 2000 lines of a file;
  glob patterns are decided before.
- `ls`, `glob`, upload and download of artifacts, and message, tool and JSON normalisation in `gateway_model.py`: they
  would add only easy members.
- AgentDefault.StaysEligibleExactlyWhen: clients create agents through the service, which makes them agents of one
  project; the import of old databases, which makes every agent common, is not modelled. A transaction that found no
  default row acts in one step, on the agents as they are then; `set_default_agent` needs no such treatment, as its
  insertion of a second row is refused.
- Recorder.RecordersAgree: an event is never deleted, and a recorder's second look sees what others have committed.
- Discovery.Tools.Sync: the registry that mirrors discovered tools and the time stamps are not modelled.
- Backfill.BackfillRuns: runs that are created or change their status while it works are not modelled.
- Deadlock and lock order: rows are locked for the length of an atomic step.
