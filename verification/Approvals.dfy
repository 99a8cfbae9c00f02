/**
 Approval of tool calls and the hand-off of the run that waits for it (backend/app/approvals/service.py and router.py,
 `_pause_for_approval` and `execute_approved` in backend/app/tools/gateway.py, `_execute_approved_tool` in
 backend/app/conversations/dispatcher.py, the parking branch of backend/app/runtime/harness.py).

 Each transaction is one function from rows to rows, or an exception that leaves the rows as they were.
 */
module Approvals {
  import opened Outcomes
  import opened Canonical
  import opened PyDict
  import opened TeamService

  datatype RunStatus = Queued | Running | WaitingApproval | Completed | Failed | Cancelled

  datatype InvocationStatus = Waiting | Started | Finished(ok: bool)

  datatype Decision = Pending | Approved | Rejected | Expired

  datatype Invocation = Invocation(runId: string, toolId: string, status: InvocationStatus, arguments: Dict)

  datatype Approval = Approval(
    runId: string,
    invocationId: string,
    unitId: string,
    projectId: string,
    requesterId: string,
    assigneeRole: string,
    digest: string,
    expiresAt: int,
    decision: Decision,
    decidedBy: Option<string>,
    decidedAt: Option<int>,
    reason: Option<string>)

  datatype Context = Context(userId: string, unitId: string, projectId: string, roles: set<string>)

  datatype ApprovalError = NotFound | Forbidden | Conflict(what: string) | RunNotActive

  type Outcome<+T> = Result<T, ApprovalError>

  datatype Desk = Desk(
    runs: map<string, RunStatus>,
    invocations: map<string, Invocation>,
    approvals: map<string, Approval>)

  predicate Terminal(s: RunStatus) {
    s.Completed? || s.Failed? || s.Cancelled?
  }

  // ---------- asking for approval ----------

  datatype Call = Call(toolId: string, arguments: Dict, assigneeRole: string, expiresAt: int)

  /** The gateway parks a running run: an invocation, its approval and the run's status in one transaction. */
  function Parked(h: Hash, d: Desk, run: string, invocation: string, approval: string, ctx: Context, call: Call)
    : Outcome<Desk>
  {
    if run !in d.runs || d.runs[run] != Running then Err(RunNotActive)
    else if invocation in d.invocations || approval in d.approvals then Err(Conflict("duplicate key"))
    else
      Ok(Desk(
        d.runs[run := WaitingApproval],
        d.invocations[invocation := Invocation(run, call.toolId, Waiting, call.arguments)],
        d.approvals[approval :=
          Approval(run, invocation, ctx.unitId, ctx.projectId, ctx.userId, call.assigneeRole,
                   Digest(h, call.arguments), call.expiresAt, Pending, None, None, None)]))
  }

  // ---------- deciding ----------

  function Visible(d: Desk, id: string, ctx: Context): Outcome<Approval> {
    if id !in d.approvals || d.approvals[id].unitId != ctx.unitId || d.approvals[id].projectId != ctx.projectId then
      Err(NotFound)
    else Ok(d.approvals[id])
  }

  predicate MayDecide(a: Approval, ctx: Context) {
    a.assigneeRole in ctx.roles && ctx.userId != a.requesterId
  }

  function Decided(a: Approval, decision: Decision, ctx: Context, reason: Option<string>, at: int): Approval {
    a.(decision := decision, decidedBy := Some(ctx.userId), decidedAt := Some(at), reason := reason)
  }

  /** The approval, if this user may approve it now. */
  function Approvable(h: Hash, d: Desk, id: string, ctx: Context, now: int): Outcome<Approval> {
    var a :- Visible(d, id, ctx);
    if !MayDecide(a, ctx) then Err(Forbidden)
    else if a.invocationId !in d.invocations then Err(Conflict("tool invocation missing"))
    else if a.decision != Pending then Err(Conflict("already decided"))
    else if a.expiresAt <= now then Err(Conflict("expired"))
    else if Digest(h, d.invocations[a.invocationId].arguments) != a.digest then Err(Conflict("arguments changed"))
    else Ok(a)
  }

  /** `approve` and the endpoint around it: the clock is read once to check expiry and once for the decision. */
  function ApprovedBy(h: Hash, d: Desk, id: string, ctx: Context, reason: Option<string>, now: int, at: int)
    : Outcome<Desk>
  {
    var a :- Approvable(h, d, id, ctx, now);
    if a.runId !in d.runs || d.runs[a.runId] != WaitingApproval then Err(Conflict("run is not waiting"))
    else
      Ok(d.(approvals := d.approvals[id := Decided(a, Approved, ctx, reason, at)], runs := d.runs[a.runId := Queued]))
  }

  /** Rejecting looks at neither expiry nor the run. */
  function RejectedBy(d: Desk, id: string, ctx: Context, reason: Option<string>, at: int): Outcome<Desk> {
    var a :- Visible(d, id, ctx);
    if !MayDecide(a, ctx) then Err(Forbidden)
    else if a.decision != Pending then Err(Conflict("already decided"))
    else Ok(d.(approvals := d.approvals[id := Decided(a, Rejected, ctx, reason, at)]))
  }

  // ---------- carrying out an approved call ----------

  /** What the dispatcher finds before it hands the approval to the gateway. */
  predicate Resumable(d: Desk, id: string) {
    && id in d.approvals && d.approvals[id].decision == Approved
    && d.approvals[id].runId in d.runs && d.runs[d.approvals[id].runId] == Queued
    && d.approvals[id].invocationId in d.invocations
    && d.invocations[d.approvals[id].invocationId].status == Waiting
  }

  /** The run fails unless it has ended. */
  function RunFailed(d: Desk, run: string): Desk {
    if run in d.runs && !Terminal(d.runs[run]) then d.(runs := d.runs[run := Failed]) else d
  }

  /**
   The first transaction of a resumption.  `admitted` says whether the tool may still be executed; when it may not,
   the run is failed.
   */
  function Resumed(h: Hash, d: Desk, id: string, ctx: Context, admitted: bool): Outcome<Desk> {
    if !Resumable(d, id) then Ok(d)
    else
      var a :- Visible(d, id, ctx);
      var invocation := d.invocations[a.invocationId];
      if Digest(h, invocation.arguments) != a.digest then Err(Conflict("arguments changed"))
      else if !admitted then Ok(RunFailed(d, a.runId))
      else Ok(d.(invocations := d.invocations[a.invocationId := invocation.(status := Started)]))
  }

  /** The call has ended; its outcome is kept only while the run is queued or waiting. */
  function CallEnded(d: Desk, invocation: string, ok: bool): Desk {
    if invocation !in d.invocations || d.invocations[invocation].status != Started then d
    else
      var run := d.invocations[invocation].runId;
      if run !in d.runs || d.runs[run] !in [Queued, WaitingApproval] then d
      else
        var ended := d.(invocations := d.invocations[invocation := d.invocations[invocation].(status := Finished(ok))]);
        if ok then ended else RunFailed(ended, run)
  }

  // ---------- what each transaction means ----------

  /** The user acts in the approval's unit and project, holds the role it is assigned to, and did not ask for it. */
  predicate Entitled(d: Desk, id: string, ctx: Context) {
    && id in d.approvals && d.approvals[id].unitId == ctx.unitId && d.approvals[id].projectId == ctx.projectId
    && d.approvals[id].assigneeRole in ctx.roles && d.approvals[id].requesterId != ctx.userId
  }

  /** A running run is parked under fresh ids: its status, a waiting call, and a pending approval that says what for. */
  lemma ParksExactlyWhen(h: Hash, d: Desk, run: string, invocation: string, id: string, ctx: Context, call: Call)
    ensures var r := Parked(h, d, run, invocation, id, ctx, call);
            && (r.Ok? <==> && run in d.runs && d.runs[run] == Running
                           && invocation !in d.invocations && id !in d.approvals)
            && (r.Ok? ==> var a := r.value.approvals[id];
                          && r.value.runs == d.runs[run := WaitingApproval]
                          && r.value.invocations == d.invocations[invocation := r.value.invocations[invocation]]
                          && r.value.invocations[invocation]
                               == Invocation(run, call.toolId, Waiting, call.arguments)
                          && r.value.approvals == d.approvals[id := a]
                          && a.runId == run && a.invocationId == invocation && a.decision == Pending
                          && a.unitId == ctx.unitId && a.projectId == ctx.projectId && a.requesterId == ctx.userId
                          && a.assigneeRole == call.assigneeRole && a.expiresAt == call.expiresAt
                          && a.digest == h(Bytes(call.arguments))
                          && a.decidedBy.None? && a.decidedAt.None? && a.reason.None?)
            && (r == Err(RunNotActive) <==> run !in d.runs || d.runs[run] != Running)
            && (r.Err? ==> r.error == RunNotActive || r.error == Conflict("duplicate key"))
  {
  }

  /** Who may reject what, what that leaves, and which exception is met otherwise. */
  lemma RejectsExactlyWhen(d: Desk, id: string, ctx: Context, reason: Option<string>, at: int)
    ensures var r := RejectedBy(d, id, ctx, reason, at);
            && (r.Ok? <==> Entitled(d, id, ctx) && d.approvals[id].decision == Pending)
            && (r.Ok? ==> && r.value.runs == d.runs && r.value.invocations == d.invocations
                          && r.value.approvals.Keys == d.approvals.Keys
                          && (forall other :: other in d.approvals && other != id ==>
                                r.value.approvals[other] == d.approvals[other])
                          && r.value.approvals[id] == d.approvals[id].(
                               decision := Rejected, decidedBy := Some(ctx.userId), decidedAt := Some(at),
                               reason := reason))
            && (r == Err(NotFound) <==>
                id !in d.approvals
                || d.approvals[id].unitId != ctx.unitId || d.approvals[id].projectId != ctx.projectId)
            && (r == Err(Conflict("already decided")) <==> Entitled(d, id, ctx) && d.approvals[id].decision != Pending)
            && (r.Err? ==> r.error in [NotFound, Forbidden, Conflict("already decided")])
  {
  }

  /** The same for approving, which also needs a call with the approved arguments, time left, and a waiting run. */
  lemma ApprovesExactlyWhen(h: Hash, d: Desk, id: string, ctx: Context, reason: Option<string>, now: int, at: int)
    ensures var r := ApprovedBy(h, d, id, ctx, reason, now, at);
            && (r.Ok? <==>
                && Entitled(d, id, ctx) && d.approvals[id].decision == Pending && now < d.approvals[id].expiresAt
                && d.approvals[id].invocationId in d.invocations
                && h(Bytes(d.invocations[d.approvals[id].invocationId].arguments)) == d.approvals[id].digest
                && d.approvals[id].runId in d.runs && d.runs[d.approvals[id].runId] == WaitingApproval)
            && (r.Ok? ==> && r.value.runs == d.runs[d.approvals[id].runId := Queued]
                          && r.value.invocations == d.invocations
                          && r.value.approvals.Keys == d.approvals.Keys
                          && (forall other :: other in d.approvals && other != id ==>
                                r.value.approvals[other] == d.approvals[other])
                          && r.value.approvals[id] == d.approvals[id].(
                               decision := Approved, decidedBy := Some(ctx.userId), decidedAt := Some(at),
                               reason := reason))
  {
    hide Bytes;
  }

  /** The first of these exceptions that applies is the one an approval that does not go through meets. */
  lemma ApproveFails(h: Hash, d: Desk, id: string, ctx: Context, reason: Option<string>, now: int, at: int)
    requires ApprovedBy(h, d, id, ctx, reason, now, at).Err?
    ensures var e := ApprovedBy(h, d, id, ctx, reason, now, at).error;
            && (e == NotFound <==> id !in d.approvals || d.approvals[id].unitId != ctx.unitId
                                   || d.approvals[id].projectId != ctx.projectId)
            && (e == Forbidden <==> e != NotFound && !Entitled(d, id, ctx))
            && (e.Conflict? <==> Entitled(d, id, ctx))
            && (e.Conflict? ==>
                  var a := d.approvals[id];
                  e.what == if a.invocationId !in d.invocations then "tool invocation missing"
                            else if a.decision != Pending then "already decided"
                            else if a.expiresAt <= now then "expired"
                            else if h(Bytes(d.invocations[a.invocationId].arguments)) != a.digest
                            then "arguments changed"
                            else "run is not waiting")
  {
    hide Bytes;
  }

  /** Ending a call records its outcome, and a failed one fails the run, while the run is queued or waiting. */
  lemma CallEndsExactlyWhen(d: Desk, invocation: string, ok: bool)
    ensures var d' := CallEnded(d, invocation, ok);
            var ends := && invocation in d.invocations && d.invocations[invocation].status == Started
                        && d.invocations[invocation].runId in d.runs
                        && d.runs[d.invocations[invocation].runId] in [Queued, WaitingApproval];
            && d'.approvals == d.approvals
            && (!ends ==> d' == d)
            && (ends ==>
                  && d'.invocations == d.invocations[invocation := d'.invocations[invocation]]
                  && d'.invocations[invocation] == d.invocations[invocation].(status := Finished(ok))
                  && d'.runs == if ok then d.runs else d.runs[d.invocations[invocation].runId := Failed])
  {
  }

  /** A resumption that finds its call ready starts it if it is admitted, and otherwise fails the run. */
  lemma ResumedExactly(h: Hash, d: Desk, id: string, ctx: Context, admitted: bool)
    ensures var r := Resumed(h, d, id, ctx, admitted);
            var ready := && id in d.approvals && d.approvals[id].decision == Approved
                         && d.approvals[id].runId in d.runs && d.runs[d.approvals[id].runId] == Queued
                         && d.approvals[id].invocationId in d.invocations
                         && d.invocations[d.approvals[id].invocationId].status == Waiting;
            && (!ready ==> r == Ok(d))
            && (ready ==>
                  var a := d.approvals[id];
                  var call := d.invocations[a.invocationId];
                  r == if a.unitId != ctx.unitId || a.projectId != ctx.projectId then Err(NotFound)
                       else if h(Bytes(call.arguments)) != a.digest then Err(Conflict("arguments changed"))
                       else Ok(Desk(if admitted then d.runs else d.runs[a.runId := Failed],
                                    if admitted then d.invocations[a.invocationId := call.(status := Started)]
                                    else d.invocations,
                                    d.approvals)))
  {
    hide Bytes;
  }

  // ---------- the rows, changed in place ----------

  class ApprovalDesk {
    var runs: map<string, RunStatus>
    var invocations: map<string, Invocation>
    var approvals: map<string, Approval>

    constructor ()
      ensures Contents() == Desk(map[], map[], map[])
    {
      runs, invocations, approvals := map[], map[], map[];
    }

    ghost function Contents(): Desk
      reads this
    {
      Desk(runs, invocations, approvals)
    }

    method GetForUpdate(id: string, ctx: Context) returns (r: Outcome<Approval>)
      ensures r == Visible(Contents(), id, ctx)
    {
      if id !in approvals || approvals[id].unitId != ctx.unitId || approvals[id].projectId != ctx.projectId {
        return Err(NotFound);
      }
      return Ok(approvals[id]);
    }

    /** An approval that has expired is marked so, and the exception follows. */
    method CheckPending(h: Hash, id: string, invocation: Invocation, now: int) returns (r: Outcome<()>)
      requires id in approvals
      modifies this`approvals
      ensures r.Ok? <==> && old(approvals)[id].decision == Pending
                         && now < old(approvals)[id].expiresAt
                         && Digest(h, invocation.arguments) == old(approvals)[id].digest
      ensures approvals ==
                if old(approvals)[id].decision == Pending && old(approvals)[id].expiresAt <= now then
                  old(approvals)[id := old(approvals)[id].(decision := Expired)]
                else old(approvals)
      ensures r.Err? ==>
                r == Err(Conflict(
                  if old(approvals)[id].decision != Pending then "already decided"
                  else if old(approvals)[id].expiresAt <= now then "expired"
                  else "arguments changed"))
    {
      var a := approvals[id];
      if a.decision != Pending {
        return Err(Conflict("already decided"));
      }
      if a.expiresAt <= now {
        approvals := approvals[id := a.(decision := Expired)];
        return Err(Conflict("expired"));
      }
      if Digest(h, invocation.arguments) != a.digest {
        return Err(Conflict("arguments changed"));
      }
      return Ok(());
    }

    method Approve(h: Hash, id: string, ctx: Context, reason: Option<string>, now: int, at: int)
      returns (r: Outcome<Approval>)
      modifies this`approvals
      ensures match Approvable(h, old(Contents()), id, ctx, now)
              case Ok(a) =>
                && r == Ok(Decided(a, Approved, ctx, reason, at))
                && approvals == old(approvals)[id := r.value]
              case Err(e) => r == Err(e)
    {
      var a :- GetForUpdate(id, ctx);
      if !MayDecide(a, ctx) {
        return Err(Forbidden);
      }
      if a.invocationId !in invocations {
        return Err(Conflict("tool invocation missing"));
      }
      var _ :- CheckPending(h, id, invocations[a.invocationId], now);
      a := a.(decision := Approved);
      a := a.(decidedBy := Some(ctx.userId));
      a := a.(reason := reason);
      a := a.(decidedAt := Some(at));
      approvals := approvals[id := a];
      return Ok(a);
    }

    /** The endpoint: the decision and the run's way back to the queue, or neither. */
    method ApproveEndpoint(h: Hash, id: string, ctx: Context, reason: Option<string>, now: int, at: int)
      returns (r: Outcome<()>)
      modifies this
      ensures var outcome := ApprovedBy(h, old(Contents()), id, ctx, reason, now, at);
              match outcome
              case Ok(d) => r.Ok? && Contents() == d
              case Err(e) => r == Err(e) && Contents() == old(Contents())
    {
      var saved := approvals;
      var approved := Approve(h, id, ctx, reason, now, at);
      if approved.Err? {
        approvals := saved;
        return Err(approved.error);
      }
      var run := approved.value.runId;
      if run !in runs || runs[run] != WaitingApproval {
        approvals := saved;
        return Err(Conflict("run is not waiting"));
      }
      runs := runs[run := Queued];
      return Ok(());
    }

    method RejectEndpoint(id: string, ctx: Context, reason: Option<string>, at: int) returns (r: Outcome<()>)
      modifies this`approvals
      ensures match RejectedBy(old(Contents()), id, ctx, reason, at)
              case Ok(d) => r.Ok? && Contents() == d
              case Err(e) => r == Err(e) && Contents() == old(Contents())
    {
      var a :- GetForUpdate(id, ctx);
      if !MayDecide(a, ctx) {
        return Err(Forbidden);
      }
      if a.decision != Pending {
        return Err(Conflict("already decided"));
      }
      approvals := approvals[id := Decided(a, Rejected, ctx, reason, at)];
      return Ok(());
    }

    method PauseForApproval(h: Hash, run: string, invocation: string, approval: string, ctx: Context, call: Call)
      returns (r: Outcome<()>)
      modifies this
      ensures match Parked(h, old(Contents()), run, invocation, approval, ctx, call)
              case Ok(d) => r.Ok? && Contents() == d
              case Err(e) => r == Err(e) && Contents() == old(Contents())
    {
      if run !in runs || runs[run] != Running {
        return Err(RunNotActive);
      }
      var savedInvocations := invocations;
      if invocation in invocations {
        return Err(Conflict("duplicate key"));
      }
      invocations := invocations[invocation := Invocation(run, call.toolId, Waiting, call.arguments)];
      if approval in approvals {
        invocations := savedInvocations;
        return Err(Conflict("duplicate key"));
      }
      approvals := approvals[approval :=
        Approval(run, invocation, ctx.unitId, ctx.projectId, ctx.userId, call.assigneeRole,
                 Digest(h, call.arguments), call.expiresAt, Pending, None, None, None)];
      runs := runs[run := WaitingApproval];
      return Ok(());
    }

    method ResumeApproval(h: Hash, id: string, ctx: Context, admitted: bool) returns (r: Outcome<()>)
      modifies this
      ensures match Resumed(h, old(Contents()), id, ctx, admitted)
              case Ok(d) => r.Ok? && Contents() == d
              case Err(e) => r == Err(e) && Contents() == old(Contents())
    {
      if id !in approvals || approvals[id].decision != Approved {
        return Ok(());
      }
      var a := approvals[id];
      if a.runId !in runs || runs[a.runId] != Queued {
        return Ok(());
      }
      if a.invocationId !in invocations || invocations[a.invocationId].status != Waiting {
        return Ok(());
      }
      var locked :- GetForUpdate(id, ctx);
      if Digest(h, invocations[a.invocationId].arguments) != a.digest {
        return Err(Conflict("arguments changed"));
      }
      if !admitted {
        if !Terminal(runs[a.runId]) {
          runs := runs[a.runId := Failed];
        }
        return Ok(());
      }
      invocations := invocations[a.invocationId := invocations[a.invocationId].(status := Started)];
      return Ok(());
    }
  }
}
