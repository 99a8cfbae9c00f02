/**
 What holds over any interleaving of parking, deciding, resuming and whatever else sets the status of a run.
 */
module ApprovalHistory {
  import opened Outcomes
  import opened PyDict
  import opened TeamService
  import opened Approvals

  datatype Step =
    | AddRun(run: string)
    | Park(run: string, invocation: string, id: string, ctx: Context, call: Call)
    | Approve(id: string, ctx: Context, reason: Option<string>, now: int, at: int)
    | Reject(id: string, ctx: Context, reason: Option<string>, at: int)
    | Resume(id: string, ctx: Context, admitted: bool)
    | EndCall(invocation: string, ok: bool)
    // The harness assigns a status without looking at the old one; so it re-parks a run the gateway parked.
    | SetRun(run: string, status: RunStatus)
    | SetArguments(invocation: string, arguments: Dict)

  function Committed(d: Desk, outcome: Outcome<Desk>): Desk {
    if outcome.Ok? then outcome.value else d
  }

  function Next(h: Hash, d: Desk, step: Step): Desk {
    match step
    case AddRun(run) => if run in d.runs then d else d.(runs := d.runs[run := Queued])
    case Park(run, invocation, id, ctx, call) => Committed(d, Parked(h, d, run, invocation, id, ctx, call))
    case Approve(id, ctx, reason, now, at) => Committed(d, ApprovedBy(h, d, id, ctx, reason, now, at))
    case Reject(id, ctx, reason, at) => Committed(d, RejectedBy(d, id, ctx, reason, at))
    case Resume(id, ctx, admitted) => Committed(d, Resumed(h, d, id, ctx, admitted))
    case EndCall(invocation, ok) => CallEnded(d, invocation, ok)
    case SetRun(run, status) => if run in d.runs then d.(runs := d.runs[run := status]) else d
    case SetArguments(invocation, arguments) =>
      if invocation in d.invocations then
        d.(invocations := d.invocations[invocation := d.invocations[invocation].(arguments := arguments)])
      else d
  }

  const EMPTY := Desk(map[], map[], map[])

  function Run(h: Hash, d: Desk, steps: seq<Step>): Desk {
    if steps == [] then d else Next(h, Run(h, d, steps[..|steps| - 1]), steps[|steps| - 1])
  }

  // ---------- decisions ----------

  predicate Settled(a: Approval) {
    a.decision == Approved || a.decision == Rejected
  }

  /** What an approval was asked for. */
  function Request(a: Approval): Approval {
    a.(decision := Pending, decidedBy := None, decidedAt := None, reason := None)
  }

  /** What was asked stays as it was, and what was decided stays altogether. */
  ghost predicate Kept(d: Desk, d': Desk) {
    forall id :: id in d.approvals ==>
      && id in d'.approvals
      && Request(d'.approvals[id]) == Request(d.approvals[id])
      && (Settled(d.approvals[id]) ==> d'.approvals[id] == d.approvals[id])
  }

  lemma StepKeeps(h: Hash, d: Desk, step: Step)
    ensures Kept(d, Next(h, d, step))
  {
    hide Digest;
    var d' := Next(h, d, step);
    forall id | id in d.approvals
      ensures id in d'.approvals && Request(d'.approvals[id]) == Request(d.approvals[id])
      ensures Settled(d.approvals[id]) ==> d'.approvals[id] == d.approvals[id]
    {
      StepKeepsOne(h, d, step, id);
    }
  }

  lemma StepKeepsOne(h: Hash, d: Desk, step: Step, id: string)
    requires id in d.approvals
    ensures var d' := Next(h, d, step);
            && id in d'.approvals && Request(d'.approvals[id]) == Request(d.approvals[id])
            && (Settled(d.approvals[id]) ==> d'.approvals[id] == d.approvals[id])
  {
    hide Digest;
  }

  lemma {:induction false} DecisionsAreKept(h: Hash, d: Desk, steps: seq<Step>)
    ensures Kept(d, Run(h, d, steps))
  {
    hide Next, Request;
    if steps != [] {
      var n := |steps| - 1;
      DecisionsAreKept(h, d, steps[..n]);
      StepKeeps(h, Run(h, d, steps[..n]), steps[n]);
    }
  }

  /** This step decided the approval, and the user it acted for was entitled to. */
  predicate Decides(h: Hash, d: Desk, step: Step, id: string, a: Approval) {
    && (step.Approve? || step.Reject?) && step.id == id && id in d.approvals
    && d.approvals[id].decision == Pending
    && a.decidedBy == Some(step.ctx.userId) && a.decidedAt == Some(step.at) && a.reason == step.reason
    && a.assigneeRole in step.ctx.roles && step.ctx.userId != a.requesterId
    && a.unitId == step.ctx.unitId && a.projectId == step.ctx.projectId
    && (step.Reject? ==> a.decision == Rejected)
    && (step.Approve? ==>
          && a.decision == Approved && step.now < a.expiresAt
          && a.runId in d.runs && d.runs[a.runId] == WaitingApproval)
  }

  lemma StepDecides(h: Hash, d: Desk, step: Step, id: string)
    requires id in Next(h, d, step).approvals && Next(h, d, step).approvals[id].decision != Pending
    ensures Decides(h, d, step, id, Next(h, d, step).approvals[id])
         || (id in d.approvals && d.approvals[id] == Next(h, d, step).approvals[id])
  {
    hide Digest;
  }

  /**
   Whatever happens, an approval that is no longer pending was approved or rejected, never left expired, by a step of
   a user other than the requester who holds the assignee role; an approval came before its expiry, while its run
   was waiting.
   */
  lemma {:induction false} DecisionsAreEarned(h: Hash, steps: seq<Step>, id: string) returns (i: nat)
    requires id in Run(h, EMPTY, steps).approvals && Run(h, EMPTY, steps).approvals[id].decision != Pending
    ensures Settled(Run(h, EMPTY, steps).approvals[id])
    ensures i < |steps| && Decides(h, Run(h, EMPTY, steps[..i]), steps[i], id, Run(h, EMPTY, steps).approvals[id])
  {
    hide Next, Decides;
    if steps == [] {
      assert false;
    } else {
      var n := |steps| - 1;
      var d := Run(h, EMPTY, steps[..n]);
      StepDecides(h, d, steps[n], id);
      if Decides(h, d, steps[n], id, Run(h, EMPTY, steps).approvals[id]) {
        DecidesSettles(h, d, steps[n], id, Run(h, EMPTY, steps).approvals[id]);
        return n;
      } else {
        i := DecisionsAreEarned(h, steps[..n], id);
        assert steps[..n][..i] == steps[..i];
      }
    }
  }

  lemma DecidesSettles(h: Hash, d: Desk, step: Step, id: string, a: Approval)
    requires Decides(h, d, step, id, a)
    ensures Settled(a)
  {
  }

  /** This step asked for the approval: of a running run, for this call, by this user. */
  predicate Asks(h: Hash, d: Desk, step: Step, id: string, a: Approval) {
    && step.Park? && step.id == id && step.run in d.runs && d.runs[step.run] == Running
    && a.runId == step.run && a.invocationId == step.invocation
    && a.unitId == step.ctx.unitId && a.projectId == step.ctx.projectId && a.requesterId == step.ctx.userId
    && a.assigneeRole == step.call.assigneeRole && a.expiresAt == step.call.expiresAt
    && a.digest == Digest(h, step.call.arguments)
  }

  lemma StepAsks(h: Hash, d: Desk, step: Step, id: string)
    requires id in Next(h, d, step).approvals && id !in d.approvals
    ensures Asks(h, d, step, id, Next(h, d, step).approvals[id])
  {
    hide Digest;
  }

  lemma AskedStays(h: Hash, d: Desk, step: Step, id: string, a: Approval, b: Approval)
    requires Asks(h, d, step, id, a) && Request(a) == Request(b)
    ensures Asks(h, d, step, id, b)
  {
    hide Digest;
    assert a == Request(a).(
        decision := a.decision, decidedBy := a.decidedBy, decidedAt := a.decidedAt, reason := a.reason);
  }

  /** Every approval there is was asked for by parking a running run, and still says what was asked. */
  lemma {:induction false} ApprovalsWereAsked(h: Hash, steps: seq<Step>, id: string) returns (i: nat)
    requires id in Run(h, EMPTY, steps).approvals
    ensures i < |steps| && Asks(h, Run(h, EMPTY, steps[..i]), steps[i], id, Run(h, EMPTY, steps).approvals[id])
  {
    hide Next, Asks, Request, Settled;
    if steps == [] {
      assert false;
    } else {
      var n := |steps| - 1;
      var d := Run(h, EMPTY, steps[..n]);
      if id in d.approvals {
        i := ApprovalsWereAsked(h, steps[..n], id);
        assert steps[..n][..i] == steps[..i];
        StepKeeps(h, d, steps[n]);
        AskedStays(h, Run(h, EMPTY, steps[..i]), steps[i], id, d.approvals[id], Run(h, EMPTY, steps).approvals[id]);
      } else {
        StepAsks(h, d, steps[n], id);
        return n;
      }
    }
  }

  // ---------- entries into waiting ----------

  predicate IsWaiting(d: Desk, run: string) {
    run in d.runs && d.runs[run] == WaitingApproval
  }

  function Entered(h: Hash, d: Desk, step: Step, run: string): nat {
    if !IsWaiting(d, run) && IsWaiting(Next(h, d, step), run) then 1 else 0
  }

  /** How often the run went from another status to waiting. */
  function Entries(h: Hash, steps: seq<Step>, run: string): nat {
    if steps == [] then 0
    else
      var n := |steps| - 1;
      Entries(h, steps[..n], run) + Entered(h, Run(h, EMPTY, steps[..n]), steps[n], run)
  }

  function ApprovedOf(d: Desk, run: string): set<string> {
    set id | id in d.approvals && d.approvals[id].runId == run && d.approvals[id].decision == Approved
  }

  function Owed(d: Desk, run: string): nat {
    |ApprovedOf(d, run)| + if IsWaiting(d, run) then 1 else 0
  }

  lemma StepOwes(h: Hash, d: Desk, step: Step, run: string)
    ensures Owed(Next(h, d, step), run) <= Owed(d, run) + Entered(h, d, step, run)
  {
    hide Digest;
    var d' := Next(h, d, step);
    if step.Approve? && ApprovedBy(h, d, step.id, step.ctx, step.reason, step.now, step.at).Ok? {
      ApproveOwes(h, d, step, run);
    } else {
      OthersApproveNone(h, d, step, run);
    }
  }

  lemma ApproveOwes(h: Hash, d: Desk, step: Step, run: string)
    requires step.Approve? && ApprovedBy(h, d, step.id, step.ctx, step.reason, step.now, step.at).Ok?
    ensures Owed(Next(h, d, step), run) <= Owed(d, run)
  {
    hide Digest, ApprovedBy, Next;
    var a := ApproveWrites(h, d, step);
    var d' := Next(h, d, step);
    if a.runId == run {
      assert ApprovedOf(d', run) == ApprovedOf(d, run) + {step.id};
    } else {
      assert ApprovedOf(d', run) == ApprovedOf(d, run);
    }
  }

  /** What an approval that goes through writes. */
  lemma ApproveWrites(h: Hash, d: Desk, step: Step) returns (a: Approval)
    requires step.Approve? && ApprovedBy(h, d, step.id, step.ctx, step.reason, step.now, step.at).Ok?
    ensures step.id in d.approvals && d.approvals[step.id].decision == Pending && d.approvals[step.id].runId == a.runId
    ensures a.decision == Approved && IsWaiting(d, a.runId)
    ensures Next(h, d, step) == Desk(d.runs[a.runId := Queued], d.invocations, d.approvals[step.id := a])
  {
    hide Digest;
    a := Decided(d.approvals[step.id], Approved, step.ctx, step.reason, step.at);
  }

  lemma OthersApproveNone(h: Hash, d: Desk, step: Step, run: string)
    requires step.Approve? ==> ApprovedBy(h, d, step.id, step.ctx, step.reason, step.now, step.at).Err?
    ensures ApprovedOf(Next(h, d, step), run) == ApprovedOf(d, run)
  {
    hide Digest;
  }

  /** Approved approvals of a run never outnumber its entries into waiting, counting one that is still open. */
  lemma {:induction false} ApprovalsNeedEntries(h: Hash, steps: seq<Step>, run: string)
    ensures Owed(Run(h, EMPTY, steps), run) <= Entries(h, steps, run)
  {
    hide Next, Entered, Owed;
    if steps != [] {
      var n := |steps| - 1;
      ApprovalsNeedEntries(h, steps[..n], run);
      StepOwes(h, Run(h, EMPTY, steps[..n]), steps[n], run);
    } else {
      NothingOwed(run);
    }
  }

  lemma NothingOwed(run: string)
    ensures Owed(EMPTY, run) == 0
  {
  }

  /** The run goes from another status to waiting at this place of the history. */
  predicate EntersAt(h: Hash, steps: seq<Step>, run: string, i: nat)
    requires i < |steps|
  {
    !IsWaiting(Run(h, EMPTY, steps[..i]), run) && IsWaiting(Run(h, EMPTY, steps[..i + 1]), run)
  }

  function EntryPlaces(h: Hash, steps: seq<Step>, run: string): set<nat> {
    set i: nat | i < |steps| && EntersAt(h, steps, run, i)
  }

  lemma EntersAtEarlier(h: Hash, steps: seq<Step>, n: nat, run: string, i: nat)
    requires i < n <= |steps|
    ensures EntersAt(h, steps[..n], run, i) <==> EntersAt(h, steps, run, i)
  {
    hide Run, IsWaiting;
    assert steps[..n][..i] == steps[..i] && steps[..n][..i + 1] == steps[..i + 1];
  }

  lemma EntersLast(h: Hash, steps: seq<Step>, run: string)
    requires steps != []
    ensures var n := |steps| - 1;
            Entered(h, Run(h, EMPTY, steps[..n]), steps[n], run) == if EntersAt(h, steps, run, n) then 1 else 0
  {
    hide Next, IsWaiting;
    assert steps[..|steps|] == steps;
  }

  /** The entries counted are those places. */
  lemma {:induction false} EntriesAre(h: Hash, steps: seq<Step>, run: string)
    ensures Entries(h, steps, run) == |EntryPlaces(h, steps, run)|
  {
    hide Run, Entered, EntersAt;
    if steps != [] {
      var n := |steps| - 1;
      EntriesAre(h, steps[..n], run);
      EntersLast(h, steps, run);
      forall i: nat | i < n ensures EntersAt(h, steps[..n], run, i) <==> EntersAt(h, steps, run, i) {
        EntersAtEarlier(h, steps, n, run, i);
      }
      var earlier := EntryPlaces(h, steps[..n], run);
      assert EntryPlaces(h, steps, run) == earlier + if EntersAt(h, steps, run, n) then {n} else {};
      assert n !in earlier;
    }
  }

  // ---------- runs that have ended ----------

  /** Only an assignment that looks at nothing moves a run that has ended. */
  lemma EndedRunsStay(h: Hash, d: Desk, step: Step, run: string)
    requires run in d.runs && Terminal(d.runs[run]) && !step.SetRun?
    ensures run in Next(h, d, step).runs && Next(h, d, step).runs[run] == d.runs[run]
  {
    hide Digest;
  }

  // ---------- carrying out a call ----------

  predicate Starts(h: Hash, d: Desk, step: Step, invocation: string) {
    && invocation in d.invocations && d.invocations[invocation].status == Waiting
    && invocation in Next(h, d, step).invocations && Next(h, d, step).invocations[invocation].status != Waiting
  }

  /** Only resuming an approved approval starts a call, and only with the arguments that were approved. */
  predicate StartsApproved(h: Hash, d: Desk, step: Step, invocation: string) {
    && step.Resume? && step.admitted
    && step.id in d.approvals && d.approvals[step.id].invocationId == invocation
    && d.approvals[step.id].decision == Approved
    && invocation in d.invocations
    && Digest(h, d.invocations[invocation].arguments) == d.approvals[step.id].digest
    && d.approvals[step.id].runId in d.runs && d.runs[d.approvals[step.id].runId] == Queued
  }

  lemma StepStarts(h: Hash, d: Desk, step: Step, invocation: string)
    requires Starts(h, d, step, invocation)
    ensures StartsApproved(h, d, step, invocation)
  {
    hide Digest;
  }

  /** How often the call was started. */
  function StartCount(h: Hash, steps: seq<Step>, invocation: string): nat {
    if steps == [] then 0
    else
      var n := |steps| - 1;
      StartCount(h, steps[..n], invocation)
        + if Starts(h, Run(h, EMPTY, steps[..n]), steps[n], invocation) then 1 else 0
  }

  predicate Begun(d: Desk, invocation: string) {
    invocation in d.invocations && d.invocations[invocation].status != Waiting
  }

  lemma StepBegins(h: Hash, d: Desk, step: Step, invocation: string)
    ensures Begun(Next(h, d, step), invocation) <==> Begun(d, invocation) || Starts(h, d, step, invocation)
  {
    hide Digest;
  }

  /** A call is started at most once, and has begun exactly when it was. */
  lemma {:induction false} StartedOnce(h: Hash, steps: seq<Step>, invocation: string)
    ensures StartCount(h, steps, invocation) == if Begun(Run(h, EMPTY, steps), invocation) then 1 else 0
  {
    hide Next;
    if steps != [] {
      var n := |steps| - 1;
      StartedOnce(h, steps[..n], invocation);
      StepBegins(h, Run(h, EMPTY, steps[..n]), steps[n], invocation);
    }
  }

  /** Behind every call that has begun there is an approval somebody entitled to gave for exactly its arguments. */
  lemma {:induction false} BegunWasApproved(h: Hash, steps: seq<Step>, invocation: string) returns (i: nat)
    requires Begun(Run(h, EMPTY, steps), invocation)
    ensures i < |steps| && StartsApproved(h, Run(h, EMPTY, steps[..i]), steps[i], invocation)
  {
    hide Next, Begun, StartsApproved;
    if steps == [] {
      EmptyBegun(invocation);
    } else {
      var n := |steps| - 1;
      var d := Run(h, EMPTY, steps[..n]);
      StepBegins(h, d, steps[n], invocation);
      if Starts(h, d, steps[n], invocation) {
        StepStarts(h, d, steps[n], invocation);
        return n;
      } else {
        i := BegunWasApproved(h, steps[..n], invocation);
        assert steps[..n][..i] == steps[..i];
      }
    }
  }

  lemma EmptyBegun(invocation: string)
    ensures !Begun(EMPTY, invocation)
  {
  }

  // ---------- one approval to a call ----------

  /** Every approval belongs to a run and to a call of its own, and a call that has begun was approved. */
  ghost predicate Paired(d: Desk) {
    && (forall id :: id in d.approvals ==> HasCall(d, id))
    && (forall i, j ::
          (i in d.approvals && j in d.approvals && d.approvals[i].invocationId == d.approvals[j].invocationId)
          ==> i == j)
  }

  predicate HasCall(d: Desk, id: string)
    requires id in d.approvals
  {
    var a := d.approvals[id];
    && a.runId in d.runs && a.invocationId in d.invocations
    && (Begun(d, a.invocationId) ==> a.decision == Approved)
  }

  /** Nothing but parking adds an approval or a call, and no step takes one away. */
  lemma StepAdds(h: Hash, d: Desk, step: Step)
    ensures var d' := Next(h, d, step);
            && d.runs.Keys <= d'.runs.Keys && d.invocations.Keys <= d'.invocations.Keys
            && (step.Park? && Parked(h, d, step.run, step.invocation, step.id, step.ctx, step.call).Ok? ==>
                  && step.id !in d.approvals && step.invocation !in d.invocations
                  && d'.approvals.Keys == d.approvals.Keys + {step.id}
                  && d'.approvals[step.id].invocationId == step.invocation && d'.approvals[step.id].runId == step.run
                  && step.run in d'.runs && step.invocation in d'.invocations
                  && d'.invocations[step.invocation].status == Waiting)
            && (!(step.Park? && Parked(h, d, step.run, step.invocation, step.id, step.ctx, step.call).Ok?) ==>
                  d'.approvals.Keys == d.approvals.Keys)
  {
    hide Digest;
  }

  lemma StepPaired(h: Hash, d: Desk, step: Step)
    requires Paired(d)
    ensures Paired(Next(h, d, step))
  {
    hide Next, Parked, Starts, StartsApproved;
    var d' := Next(h, d, step);
    StepAdds(h, d, step);
    StepKeeps(h, d, step);
    forall id | id in d'.approvals
      ensures HasCall(d', id)
    {
      if id in d.approvals {
        assert HasCall(d, id);
        StepKeepsCall(h, d, step, id);
      }
    }
    forall i, j | i in d'.approvals && j in d'.approvals && d'.approvals[i].invocationId == d'.approvals[j].invocationId
      ensures i == j
    {
      assert i in d.approvals ==> HasCall(d, i) && Request(d'.approvals[i]) == Request(d.approvals[i]);
      assert j in d.approvals ==> HasCall(d, j) && Request(d'.approvals[j]) == Request(d.approvals[j]);
    }
  }

  lemma StartsItsOwn(h: Hash, d: Desk, step: Step, id: string)
    requires Paired(d) && id in d.approvals && StartsApproved(h, d, step, d.approvals[id].invocationId)
    ensures step.Resume? && step.id == id && d.approvals[id].decision == Approved
  {
    hide Digest, HasCall, Next;
  }

  lemma StepKeepsCall(h: Hash, d: Desk, step: Step, id: string)
    requires Paired(d) && id in d.approvals
    ensures id in Next(h, d, step).approvals && HasCall(Next(h, d, step), id)
  {
    hide Next, Parked, Starts, StartsApproved;
    var d' := Next(h, d, step);
    var a := d.approvals[id];
    StepAdds(h, d, step);
    StepKeepsOne(h, d, step, id);
    assert HasCall(d, id);
    assert Request(d'.approvals[id]) == Request(a);
    StepBegins(h, d, step, a.invocationId);
    if Starts(h, d, step, a.invocationId) {
      StepStarts(h, d, step, a.invocationId);
      StartsItsOwn(h, d, step, id);
    }
  }

  lemma {:induction false} RunPaired(h: Hash, d: Desk, steps: seq<Step>)
    requires Paired(d)
    ensures Paired(Run(h, d, steps))
  {
    hide Next, Paired;
    if steps != [] {
      var n := |steps| - 1;
      RunPaired(h, d, steps[..n]);
      StepPaired(h, Run(h, d, steps[..n]), steps[n]);
    }
  }

  // ---------- from the decision to the call ----------

  predicate IsQueued(d: Desk, run: string) {
    run in d.runs && d.runs[run] == Queued
  }

  /** How often the steps took the run from the queue. */
  function Left(h: Hash, d: Desk, steps: seq<Step>, run: string): nat {
    if steps == [] then 0
    else
      var n := |steps| - 1;
      var t := Run(h, d, steps[..n]);
      Left(h, d, steps[..n], run) + if IsQueued(t, run) && !IsQueued(Next(h, t, steps[n]), run) then 1 else 0
  }

  /** How often they put it back. */
  function Returned(h: Hash, d: Desk, steps: seq<Step>, run: string): nat {
    if steps == [] then 0
    else
      var n := |steps| - 1;
      var t := Run(h, d, steps[..n]);
      Returned(h, d, steps[..n], run) + if !IsQueued(t, run) && IsQueued(Next(h, t, steps[n]), run) then 1 else 0
  }

  lemma {:induction false} QueuedByCount(h: Hash, d: Desk, steps: seq<Step>, run: string)
    requires IsQueued(d, run)
    ensures Left(h, d, steps, run) == Returned(h, d, steps, run) + if IsQueued(Run(h, d, steps), run) then 0 else 1
  {
    hide Next, IsQueued;
    if steps != [] {
      QueuedByCount(h, d, steps[..|steps| - 1], run);
    }
  }

  /** What the last of the steps that set the arguments left, or what they were before. */
  function LastArguments(steps: seq<Step>, invocation: string, before: Dict): Dict {
    if steps == [] then before
    else
      var last := steps[|steps| - 1];
      if last.SetArguments? && last.invocation == invocation then last.arguments
      else LastArguments(steps[..|steps| - 1], invocation, before)
  }

  lemma StepArguments(h: Hash, d: Desk, step: Step, invocation: string)
    requires invocation in d.invocations
    ensures var d' := Next(h, d, step);
            && invocation in d'.invocations
            && d'.invocations[invocation].arguments
                 == if step.SetArguments? && step.invocation == invocation then step.arguments
                    else d.invocations[invocation].arguments
  {
    hide Digest;
  }

  lemma {:induction false} ArgumentsAreLast(h: Hash, d: Desk, steps: seq<Step>, invocation: string)
    requires invocation in d.invocations
    ensures var d' := Run(h, d, steps);
            && invocation in d'.invocations
            && d'.invocations[invocation].arguments
                 == LastArguments(steps, invocation, d.invocations[invocation].arguments)
  {
    hide Next;
    if steps != [] {
      var n := |steps| - 1;
      ArgumentsAreLast(h, d, steps[..n], invocation);
      StepArguments(h, Run(h, d, steps[..n]), steps[n], invocation);
    }
  }

  ghost predicate StartedIn(h: Hash, d: Desk, steps: seq<Step>, invocation: string) {
    exists i :: 0 <= i < |steps| && Starts(h, Run(h, d, steps[..i]), steps[i], invocation)
  }

  /** A call is started in a history when it is started in what comes before the last step, or by that step. */
  lemma StartedMore(h: Hash, d: Desk, steps: seq<Step>, invocation: string)
    requires steps != []
    ensures var n := |steps| - 1;
            StartedIn(h, d, steps, invocation) <==>
            StartedIn(h, d, steps[..n], invocation) || Starts(h, Run(h, d, steps[..n]), steps[n], invocation)
  {
    hide Run, Starts;
    var n := |steps| - 1;
    forall i | 0 <= i < n ensures steps[..n][..i] == steps[..i] && steps[..n][i] == steps[i] {
    }
    if StartedIn(h, d, steps[..n], invocation) {
      var i :| 0 <= i < n && Starts(h, Run(h, d, steps[..n][..i]), steps[..n][i], invocation);
      assert Starts(h, Run(h, d, steps[..i]), steps[i], invocation);
    }
  }

  lemma {:induction false} BegunByStart(h: Hash, d: Desk, steps: seq<Step>, invocation: string)
    ensures Begun(Run(h, d, steps), invocation) <==> Begun(d, invocation) || StartedIn(h, d, steps, invocation)
  {
    hide Next, Begun, Starts, StartedIn;
    if steps == [] {
      NothingStarted(h, d, invocation);
    } else {
      var n := |steps| - 1;
      BegunByStart(h, d, steps[..n], invocation);
      StepBegins(h, Run(h, d, steps[..n]), steps[n], invocation);
      StartedMore(h, d, steps, invocation);
    }
  }

  lemma NothingStarted(h: Hash, d: Desk, invocation: string)
    ensures !StartedIn(h, d, [], invocation)
  {
  }

  predicate InScope(who: Context, a: Approval) {
    who.unitId == a.unitId && who.projectId == a.projectId
  }

  lemma ResumeStarts(h: Hash, d: Desk, id: string, who: Context)
    requires id in d.approvals && d.approvals[id].decision == Approved && d.approvals[id].invocationId in d.invocations
    ensures var a := d.approvals[id];
            (Starts(h, d, Resume(id, who, true), a.invocationId) <==>
             && InScope(who, a) && IsQueued(d, a.runId) && !Begun(d, a.invocationId)
             && Digest(h, d.invocations[a.invocationId].arguments) == a.digest)
  {
    hide Digest;
  }

  /** After an approval that goes through, the call waits, with the arguments approved, and its run is queued. */
  lemma ApproveLeaves(h: Hash, d: Desk, step: Step)
    requires Paired(d) && step.Approve? && ApprovedBy(h, d, step.id, step.ctx, step.reason, step.now, step.at).Ok?
    ensures var d' := Next(h, d, step);
            && step.id in d.approvals && step.id in d'.approvals && d'.approvals[step.id].decision == Approved
            && Request(d'.approvals[step.id]) == Request(d.approvals[step.id])
            && var a := d'.approvals[step.id];
               && IsQueued(d', a.runId) && a.invocationId in d'.invocations && !Begun(d', a.invocationId)
               && Digest(h, d'.invocations[a.invocationId].arguments) == a.digest
  {
    hide Digest;
    assert HasCall(d, step.id);
  }

  /**
   Between an approval and its resumption every client may do anything.  The resumption starts the call exactly when
   it comes from the approval's unit and project, the run was put back into the queue as often as it was taken from it,
   nobody started the call in between, and its last arguments have the digest that was approved.
   */
  lemma ResumesExactlyWhen(h: Hash, before: seq<Step>, step: Step, between: seq<Step>, who: Context)
    requires step.Approve?
    requires ApprovedBy(h, Run(h, EMPTY, before), step.id, step.ctx, step.reason, step.now, step.at).Ok?
    ensures var approved := Next(h, Run(h, EMPTY, before), step);
            && step.id in approved.approvals
            && var a := approved.approvals[step.id];
               && a.invocationId in approved.invocations
               && (Starts(h, Run(h, approved, between), Resume(step.id, who, true), a.invocationId) <==>
                   && InScope(who, a)
                   && Left(h, approved, between, a.runId) == Returned(h, approved, between, a.runId)
                   && !StartedIn(h, approved, between, a.invocationId)
                   && Digest(h, LastArguments(between, a.invocationId, approved.invocations[a.invocationId].arguments))
                        == a.digest)
  {
    hide *;
    var d := Run(h, EMPTY, before);
    EmptyPaired();
    RunPaired(h, EMPTY, before);
    ApproveLeaves(h, d, step);
    var approved := Next(h, d, step);
    var a := approved.approvals[step.id];
    ApprovedStays(h, approved, between, step.id);
    QueuedByCount(h, approved, between, a.runId);
    BegunByStart(h, approved, between, a.invocationId);
    ArgumentsAreLast(h, approved, between, a.invocationId);
    ResumeStarts(h, Run(h, approved, between), step.id, who);
  }

  lemma EmptyPaired()
    ensures Paired(EMPTY)
  {
  }

  lemma ApprovedStays(h: Hash, d: Desk, steps: seq<Step>, id: string)
    requires id in d.approvals && d.approvals[id].decision == Approved
    ensures id in Run(h, d, steps).approvals && Run(h, d, steps).approvals[id] == d.approvals[id]
  {
    hide Run;
    DecisionsAreKept(h, d, steps);
  }

  lemma RunThen(h: Hash, d: Desk, steps: seq<Step>, step: Step)
    ensures Run(h, d, steps + [step]) == Next(h, Run(h, d, steps), step)
  {
    assert (steps + [step])[..|steps|] == steps;
  }

  /** The arguments some approval was asked for. */
  lemma AskedFor(h: Hash, before: seq<Step>, id: string) returns (arguments: Dict)
    requires id in Run(h, EMPTY, before).approvals
    ensures Digest(h, arguments) == Run(h, EMPTY, before).approvals[id].digest
  {
    hide Run, Next, Digest;
    var i := ApprovalsWereAsked(h, before, id);
    arguments := before[i].call.arguments;
  }
}
