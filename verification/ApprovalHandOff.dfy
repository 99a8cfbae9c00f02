/**
 The hand-off of an approved call (backend/app/approvals/router.py, `resume_approval` and `_execute_approved_tool` in
 backend/app/conversations/dispatcher.py), with the clock and with what the dispatcher still has to resume.

 An approval that goes through submits one resumption.  It is held in memory until a worker takes it, and it is gone
 after that, whatever the worker found.
 */
module ApprovalHandOff {
  import opened Outcomes
  import opened PyDict
  import opened TeamService
  import opened Approvals
  import opened ApprovalHistory

  /** The rows, a time no reading of the clock lies before, and the approvals whose resumption no worker has taken. */
  datatype Office = Office(desk: Desk, now: int, outstanding: set<string>)

  datatype Event =
    // Some time passes, the step reads the clock, some more passes, and it reads the clock again.
    | Act(pause: nat, gap: nat, step: Step)
    // A new process knows nothing of what the old one had to resume.
    | Restart

  /** The step with the readings it makes of the clock. */
  function Timed(step: Step, now: int, at: int): Step {
    match step
    case Approve(_, _, _, _, _) => step.(now := now, at := at)
    case Reject(_, _, _, _) => step.(at := now)
    case _ => step
  }

  predicate GoesThrough(h: Hash, d: Desk, step: Step) {
    step.Approve? && ApprovedBy(h, d, step.id, step.ctx, step.reason, step.now, step.at).Ok?
  }

  /** A resumption that is not outstanding is nothing that could run. */
  predicate Idle(o: Office, step: Step) {
    step.Resume? && step.id !in o.outstanding
  }

  function Submitted(h: Hash, o: Office, step: Step): set<string> {
    if GoesThrough(h, o.desk, step) then o.outstanding + {step.id}
    else if step.Resume? then o.outstanding - {step.id}
    else o.outstanding
  }

  function After(h: Hash, o: Office, event: Event): Office {
    match event
    case Restart => o.(outstanding := {})
    case Act(pause, gap, step) =>
      var timed := Timed(step, o.now + pause, o.now + pause + gap);
      if Idle(o, step) then o.(now := o.now + pause + gap)
      else Office(Next(h, o.desk, timed), o.now + pause + gap, Submitted(h, o, timed))
  }

  function Played(h: Hash, o: Office, events: seq<Event>): Office {
    if events == [] then o else After(h, Played(h, o, events[..|events| - 1]), events[|events| - 1])
  }

  function Opened(now: int): Office {
    Office(EMPTY, now, {})
  }

  /** The steps that reach the rows. */
  function Steps(h: Hash, o: Office, events: seq<Event>): seq<Step> {
    if events == [] then []
    else
      var n := |events| - 1;
      var before := Played(h, o, events[..n]);
      Steps(h, o, events[..n]) + Reaching(before, events[n])
  }

  function Reaching(o: Office, event: Event): seq<Step> {
    match event
    case Restart => []
    case Act(pause, gap, step) =>
      if Idle(o, step) then [] else [Timed(step, o.now + pause, o.now + pause + gap)]
  }

  /** So all that holds over every run holds here. */
  lemma {:induction false} PlayedIsRun(h: Hash, o: Office, events: seq<Event>)
    ensures Played(h, o, events).desk == Run(h, o.desk, Steps(h, o, events))
  {
    hide Next, Timed, Submitted;
    if events != [] {
      var n := |events| - 1;
      PlayedIsRun(h, o, events[..n]);
      var before, steps := Played(h, o, events[..n]), Steps(h, o, events[..n]);
      if Reaching(before, events[n]) == [] {
        assert Steps(h, o, events) == steps;
      } else {
        RunThen(h, o.desk, steps, Reaching(before, events[n])[0]);
      }
    }
  }

  lemma PlayedThen(h: Hash, o: Office, events: seq<Event>, event: Event)
    ensures Played(h, o, events + [event]) == After(h, Played(h, o, events), event)
  {
    assert (events + [event])[..|events|] == events;
  }

  lemma PlayedNone(h: Hash, o: Office)
    ensures Played(h, o, []) == o
  {
  }

  /** What holds of the rows of every office there can be. */
  lemma PlayedPaired(h: Hash, start: int, events: seq<Event>)
    ensures Paired(Played(h, Opened(start), events).desk)
  {
    hide *;
    PlayedIsRun(h, Opened(start), events);
    OpenedEmpty(start);
    EmptyPaired();
    RunPaired(h, EMPTY, Steps(h, Opened(start), events));
  }

  lemma OpenedEmpty(now: int)
    ensures Opened(now).desk == EMPTY
  {
  }

  // ---------- a resumption is submitted once ----------

  /** The approval is given, and its resumption was taken or forgotten. */
  predicate Spent(o: Office, id: string) {
    id in o.desk.approvals && o.desk.approvals[id].decision == Approved && id !in o.outstanding
  }

  lemma EventKeepsApproved(h: Hash, o: Office, event: Event, id: string)
    requires id in o.desk.approvals && o.desk.approvals[id].decision == Approved
    ensures id in After(h, o, event).desk.approvals && After(h, o, event).desk.approvals[id] == o.desk.approvals[id]
  {
    hide Next, Submitted;
    match event
    case Restart =>
    case Act(pause, gap, step) =>
      StepKeepsOne(h, o.desk, Timed(step, o.now + pause, o.now + pause + gap), id);
  }

  lemma EventSpent(h: Hash, o: Office, event: Event, id: string)
    requires Spent(o, id)
    ensures Spent(After(h, o, event), id)
  {
    hide Next, Digest;
    EventKeepsApproved(h, o, event, id);
  }

  /** Only a resumption that was outstanding begins the call of its approval. */
  lemma EventBegins(h: Hash, o: Office, event: Event, id: string)
    requires Paired(o.desk) && id in o.desk.approvals && !Begun(o.desk, o.desk.approvals[id].invocationId)
    requires Begun(After(h, o, event).desk, o.desk.approvals[id].invocationId)
    ensures id in o.outstanding && o.desk.approvals[id].decision == Approved
    ensures IsQueued(o.desk, o.desk.approvals[id].runId)
  {
    hide Next, Paired, Starts, Begun, Submitted, StartsApproved;
    var step := Timed(event.step, o.now + event.pause, o.now + event.pause + event.gap);
    var invocation := o.desk.approvals[id].invocationId;
    StepBegins(h, o.desk, step, invocation);
    StepStarts(h, o.desk, step, invocation);
    StartsItsOwn(h, o.desk, step, id);
    StartsQueued(h, o.desk, step, id);
  }

  lemma StartsQueued(h: Hash, d: Desk, step: Step, id: string)
    requires id in d.approvals && StartsApproved(h, d, step, d.approvals[id].invocationId) && step.id == id
    ensures IsQueued(d, d.approvals[id].runId)
  {
    hide Digest;
  }

  lemma {:induction false} SpentNeverBegins(h: Hash, o: Office, events: seq<Event>, id: string)
    requires Paired(o.desk) && Spent(o, id) && !Begun(o.desk, o.desk.approvals[id].invocationId)
    ensures Spent(Played(h, o, events), id) && Paired(Played(h, o, events).desk)
    ensures Played(h, o, events).desk.approvals[id] == o.desk.approvals[id]
    ensures !Begun(Played(h, o, events).desk, o.desk.approvals[id].invocationId)
  {
    hide After, Paired, Begun;
    if events != [] {
      var n := |events| - 1;
      SpentNeverBegins(h, o, events[..n], id);
      var t := Played(h, o, events[..n]);
      EventSpent(h, t, events[n], id);
      EventKeepsApproved(h, t, events[n], id);
      EventPaired(h, t, events[n]);
      if Begun(After(h, t, events[n]).desk, o.desk.approvals[id].invocationId) {
        EventBegins(h, t, events[n], id);
      }
    }
  }

  lemma EventPaired(h: Hash, o: Office, event: Event)
    requires Paired(o.desk)
    ensures Paired(After(h, o, event).desk)
  {
    hide Next, Paired, Submitted;
    match event
    case Restart =>
    case Act(pause, gap, step) => StepPaired(h, o.desk, Timed(step, o.now + pause, o.now + pause + gap));
  }

  // ---------- a run that nothing puts back into the queue ----------

  /** No step assigns the run's status without looking. */
  predicate Unassigned(events: seq<Event>, run: string) {
    forall event :: event in events ==> !Assigns(event, run)
  }

  predicate Assigns(event: Event, run: string) {
    event.Act? && event.step.SetRun? && event.step.run == run
  }

  /** No approval of the run can be given any more: each is decided or has expired. */
  predicate NoneOpen(o: Office, run: string) {
    forall id :: id in o.desk.approvals && o.desk.approvals[id].runId == run && o.desk.approvals[id].decision == Pending
      ==> o.desk.approvals[id].expiresAt <= o.now
  }

  predicate Stuck(o: Office, run: string) {
    run in o.desk.runs && o.desk.runs[run] !in [Queued, Running] && NoneOpen(o, run)
  }

  lemma StepStuck(h: Hash, o: Office, step: Step, run: string)
    requires Stuck(o, run) && !(step.SetRun? && step.run == run) && (step.Approve? ==> o.now <= step.now)
    ensures Stuck(o.(desk := Next(h, o.desk, step)), run)
  {
    hide Digest;
  }

  lemma StuckLater(o: Office, o': Office, run: string)
    requires Stuck(o, run) && o'.desk == o.desk && o.now <= o'.now
    ensures Stuck(o', run)
  {
  }

  lemma EventStuck(h: Hash, o: Office, event: Event, run: string)
    requires Stuck(o, run) && !Assigns(event, run)
    ensures Stuck(After(h, o, event), run)
  {
    hide Next, Stuck, Submitted;
    match event
    case Restart => StuckLater(o, After(h, o, event), run);
    case Act(pause, gap, step) =>
      var timed := Timed(step, o.now + pause, o.now + pause + gap);
      if Idle(o, step) {
        StuckLater(o, After(h, o, event), run);
      } else {
        StepStuck(h, o, timed, run);
        StuckLater(o.(desk := Next(h, o.desk, timed)), After(h, o, event), run);
      }
  }

  lemma {:induction false} StuckNeverBegins(h: Hash, o: Office, events: seq<Event>, id: string)
    requires Paired(o.desk) && id in o.desk.approvals && o.desk.approvals[id].decision == Approved
    requires Stuck(o, o.desk.approvals[id].runId) && Unassigned(events, o.desk.approvals[id].runId)
    requires !Begun(o.desk, o.desk.approvals[id].invocationId)
    ensures Paired(Played(h, o, events).desk) && Stuck(Played(h, o, events), o.desk.approvals[id].runId)
    ensures id in Played(h, o, events).desk.approvals && Played(h, o, events).desk.approvals[id] == o.desk.approvals[id]
    ensures !Begun(Played(h, o, events).desk, o.desk.approvals[id].invocationId)
  {
    hide After, Paired, Begun, Stuck, IsQueued, Assigns;
    if events != [] {
      var n := |events| - 1;
      StuckNeverBegins(h, o, events[..n], id);
      var t := Played(h, o, events[..n]);
      EventStuck(h, t, events[n], o.desk.approvals[id].runId);
      EventKeepsApproved(h, t, events[n], id);
      EventPaired(h, t, events[n]);
      if Begun(After(h, t, events[n]).desk, o.desk.approvals[id].invocationId) {
        EventBegins(h, t, events[n], id);
        StuckNotQueued(t, o.desk.approvals[id].runId);
      }
    }
  }

  lemma StuckNotQueued(o: Office, run: string)
    requires Stuck(o, run)
    ensures !IsQueued(o.desk, run)
  {
  }

  // ---------- how a resumption is rescued ----------

  /** The approval is given, its call waits with the arguments approved, and the run waits for the other approval. */
  ghost predicate Rescuable(h: Hash, d: Desk, id: string, other: string) {
    && id in d.approvals && other in d.approvals
    && var a, b := d.approvals[id], d.approvals[other];
       && a.decision == Approved && b.decision == Pending && a.runId == b.runId && IsWaiting(d, a.runId)
       && a.invocationId in d.invocations && b.invocationId in d.invocations && !Begun(d, a.invocationId)
       && Digest(h, d.invocations[a.invocationId].arguments) == a.digest
       && Digest(h, d.invocations[b.invocationId].arguments) == b.digest
  }

  /** Clients set both calls' arguments, one with the assignee role approves the other approval, a worker resumes. */
  function Rescue(d: Desk, id: string, other: string, mine: Dict, theirs: Dict): seq<Event>
    requires id in d.approvals && other in d.approvals
  {
    var a, b := d.approvals[id], d.approvals[other];
    [Act(0, 0, SetArguments(b.invocationId, theirs))]
    + [Act(0, 0, SetArguments(a.invocationId, mine))]
    + [Act(0, 0, Approve(other, Decider(b), None, 0, 0))]
    + [Act(0, 0, Resume(id, Context("", a.unitId, a.projectId, {}), true))]
  }

  function Decider(a: Approval): Context {
    Context(a.requesterId + "'", a.unitId, a.projectId, {a.assigneeRole})
  }

  lemma DeciderMayDecide(a: Approval)
    ensures MayDecide(a, Decider(a)) && InScope(Decider(a), a)
  {
    assert |a.requesterId + "'"| != |a.requesterId|;
  }

  lemma RescueSets(h: Hash, d: Desk, id: string, other: string, mine: Dict, theirs: Dict)
    requires Paired(d) && id in d.approvals && other in d.approvals
    requires var a, b := d.approvals[id], d.approvals[other];
             && a.decision == Approved && b.decision == Pending && a.runId == b.runId && IsWaiting(d, a.runId)
             && !Begun(d, a.invocationId) && Digest(h, mine) == a.digest && Digest(h, theirs) == b.digest
    ensures var a, b := d.approvals[id], d.approvals[other];
            var ready := Next(h, Next(h, d, SetArguments(b.invocationId, theirs)), SetArguments(a.invocationId, mine));
            Rescuable(h, ready, id, other) && ready.approvals == d.approvals
  {
    hide Digest;
    assert HasCall(d, id) && HasCall(d, other);
  }

  lemma RescueResumes(h: Hash, d: Desk, id: string, other: string, who: Context, now: int, at: int)
    requires Rescuable(h, d, id, other)
    requires var b := d.approvals[other]; InScope(who, b) && MayDecide(b, who) && now < b.expiresAt
    ensures var a, queued := d.approvals[id], Next(h, d, Approve(other, who, None, now, at));
            forall ctx :: InScope(ctx, a) ==> Begun(Next(h, queued, Resume(id, ctx, true)), a.invocationId)
  {
    hide Digest, Resumed;
    var queued := Next(h, d, Approve(other, who, None, now, at));
    assert IsQueued(queued, d.approvals[id].runId) && queued.approvals[id] == d.approvals[id];
    assert queued.invocations == d.invocations;
    forall ctx | InScope(ctx, d.approvals[id])
      ensures Begun(Next(h, queued, Resume(id, ctx, true)), d.approvals[id].invocationId)
    {
      ResumeStarts(h, queued, id, ctx);
    }
  }

  lemma FourEvents(h: Hash, o: Office, a: Event, b: Event, c: Event, d: Event)
    ensures Played(h, o, [a] + [b] + [c] + [d]) == After(h, After(h, After(h, After(h, o, a), b), c), d)
  {
    hide After;
    PlayedNone(h, o);
    assert [] + [a] == [a];
    PlayedThen(h, o, [], a);
    PlayedThen(h, o, [a], b);
    PlayedThen(h, o, [a] + [b], c);
    PlayedThen(h, o, [a] + [b] + [c], d);
  }

  /** A step that reads no clock, decides nothing and resumes nothing changes the rows only. */
  lemma PlainAct(h: Hash, o: Office, step: Step)
    requires !step.Approve? && !step.Reject? && !step.Resume?
    ensures After(h, o, Act(0, 0, step)) == o.(desk := Next(h, o.desk, step))
  {
    hide Next;
  }

  lemma OutstandingResume(h: Hash, o: Office, id: string, who: Context, admitted: bool)
    requires id in o.outstanding
    ensures After(h, o, Act(0, 0, Resume(id, who, admitted)))
            == Office(Next(h, o.desk, Resume(id, who, admitted)), o.now, o.outstanding - {id})
  {
    hide Next;
  }

  lemma TimelyApprove(h: Hash, o: Office, id: string, who: Context)
    ensures var t := After(h, o, Act(0, 0, Approve(id, who, None, 0, 0)));
            && t.desk == Next(h, o.desk, Approve(id, who, None, o.now, o.now)) && t.now == o.now
            && o.outstanding <= t.outstanding
  {
    hide Next, ApprovedBy;
  }

  lemma RescueBegins(h: Hash, o: Office, id: string, other: string, mine: Dict, theirs: Dict)
    requires Paired(o.desk) && id in o.desk.approvals && other in o.desk.approvals && id in o.outstanding
    requires var a, b := o.desk.approvals[id], o.desk.approvals[other];
             && a.decision == Approved && b.decision == Pending && a.runId == b.runId && IsWaiting(o.desk, a.runId)
             && o.now < b.expiresAt
             && !Begun(o.desk, a.invocationId) && Digest(h, mine) == a.digest && Digest(h, theirs) == b.digest
    ensures var a, events := o.desk.approvals[id], Rescue(o.desk, id, other, mine, theirs);
            Unassigned(events, a.runId) && Begun(Played(h, o, events).desk, a.invocationId)
  {
    hide Played, After, Digest, Next, Paired, Begun, Rescuable, IsWaiting, MayDecide, Decider;
    var d := o.desk;
    var a, b, events := d.approvals[id], d.approvals[other], Rescue(d, id, other, mine, theirs);
    FourEvents(h, o, events[0], events[1], events[2], events[3]);
    PlainAct(h, o, SetArguments(b.invocationId, theirs));
    var one := o.(desk := Next(h, d, SetArguments(b.invocationId, theirs)));
    PlainAct(h, one, SetArguments(a.invocationId, mine));
    var two := one.(desk := Next(h, one.desk, SetArguments(a.invocationId, mine)));
    TimelyApprove(h, two, other, Decider(b));
    var three := After(h, two, events[2]);
    OutstandingResume(h, three, id, Context("", a.unitId, a.projectId, {}), true);
    RescueSets(h, d, id, other, mine, theirs);
    DeciderMayDecide(b);
    RescueResumes(h, two.desk, id, other, Decider(b), o.now, o.now);
  }

  // ---------- when an approved call is lost ----------

  /** No events that leave the run's status to parking, deciding, resuming and finishing ever begin the call. */
  ghost predicate LostForGood(h: Hash, o: Office, run: string, invocation: string) {
    forall events :: Unassigned(events, run) ==> !Begun(Played(h, o, events).desk, invocation)
  }

  /** No events at all ever begin the call. */
  ghost predicate NeverBegins(h: Hash, o: Office, invocation: string) {
    forall events :: !Begun(Played(h, o, events).desk, invocation)
  }

  lemma AskedArguments(h: Hash, start: int, before: seq<Event>, id: string) returns (arguments: Dict)
    requires id in Played(h, Opened(start), before).desk.approvals
    ensures Digest(h, arguments) == Played(h, Opened(start), before).desk.approvals[id].digest
  {
    hide *;
    PlayedIsRun(h, Opened(start), before);
    OpenedEmpty(start);
    arguments := AskedFor(h, Steps(h, Opened(start), before), id);
  }

  /**
   A call is approved and not begun, yet its run waits for approval.  Nothing but an assignment of the run's status
   ever begins it, exactly when its resumption is no longer outstanding or every other approval of the run is decided or
   has expired; one that is open can still be given, and that would queue the run.
   */
  lemma LostExactlyWhen(h: Hash, start: int, before: seq<Event>, id: string)
    requires var d := Played(h, Opened(start), before).desk;
             && id in d.approvals && d.approvals[id].decision == Approved
             && IsWaiting(d, d.approvals[id].runId) && !Begun(d, d.approvals[id].invocationId)
    ensures var o := Played(h, Opened(start), before); var a := o.desk.approvals[id];
            (LostForGood(h, o, a.runId, a.invocationId) <==> id !in o.outstanding || NoneOpen(o, a.runId))
  {
    hide Played, Paired, Begun, Unassigned, Rescue;
    var o := Played(h, Opened(start), before);
    var a := o.desk.approvals[id];
    PlayedPaired(h, start, before);
    if id !in o.outstanding || NoneOpen(o, a.runId) {
      forall events | Unassigned(events, a.runId)
        ensures !Begun(Played(h, o, events).desk, a.invocationId)
      {
        if id !in o.outstanding {
          SpentNeverBegins(h, o, events, id);
        } else {
          StuckNeverBegins(h, o, events, id);
        }
      }
    } else {
      var other :|
        && other in o.desk.approvals && o.desk.approvals[other].runId == a.runId
        && o.desk.approvals[other].decision == Pending && o.now < o.desk.approvals[other].expiresAt;
      var mine := AskedArguments(h, start, before, id);
      var theirs := AskedArguments(h, start, before, other);
      RescueBegins(h, o, id, other, mine, theirs);
    }
  }

  lemma QueuedAgain(h: Hash, d: Desk, id: string, mine: Dict, who: Context)
    requires Paired(d) && id in d.approvals && d.approvals[id].decision == Approved
    requires !Begun(d, d.approvals[id].invocationId) && Digest(h, mine) == d.approvals[id].digest
    requires InScope(who, d.approvals[id])
    ensures var a := d.approvals[id];
            var ready := Next(h, Next(h, d, SetArguments(a.invocationId, mine)), SetRun(a.runId, Queued));
            Begun(Next(h, ready, Resume(id, who, true)), a.invocationId)
  {
    hide Digest, Resumed;
    var a := d.approvals[id];
    assert HasCall(d, id);
    var ready := Next(h, Next(h, d, SetArguments(a.invocationId, mine)), SetRun(a.runId, Queued));
    assert IsQueued(ready, a.runId) && ready.approvals == d.approvals;
    ResumeStarts(h, ready, id, who);
  }

  lemma QueueingBegins(h: Hash, o: Office, id: string, mine: Dict)
    requires Paired(o.desk) && id in o.desk.approvals && id in o.outstanding
    requires o.desk.approvals[id].decision == Approved
    requires !Begun(o.desk, o.desk.approvals[id].invocationId) && Digest(h, mine) == o.desk.approvals[id].digest
    ensures !NeverBegins(h, o, o.desk.approvals[id].invocationId)
  {
    hide Played, After, Digest, Next, Paired, Begun;
    var a := o.desk.approvals[id];
    var who := Context("", a.unitId, a.projectId, {});
    PlayedNone(h, o);
    PlainAct(h, o, SetArguments(a.invocationId, mine));
    PlayedThen(h, o, [], Act(0, 0, SetArguments(a.invocationId, mine)));
    var one := [] + [Act(0, 0, SetArguments(a.invocationId, mine))];
    PlainAct(h, Played(h, o, one), SetRun(a.runId, Queued));
    PlayedThen(h, o, one, Act(0, 0, SetRun(a.runId, Queued)));
    var two := one + [Act(0, 0, SetRun(a.runId, Queued))];
    OutstandingResume(h, Played(h, o, two), id, who, true);
    PlayedThen(h, o, two, Act(0, 0, Resume(id, who, true)));
    QueuedAgain(h, o.desk, id, mine, who);
  }

  /**
   An approved call that has not begun never will, whatever any client does and whatever status its run is given,
   exactly when its resumption is no longer outstanding.
   */
  lemma NeverBeginsExactlyWhen(h: Hash, start: int, before: seq<Event>, id: string)
    requires var d := Played(h, Opened(start), before).desk;
             && id in d.approvals && d.approvals[id].decision == Approved && !Begun(d, d.approvals[id].invocationId)
    ensures var o := Played(h, Opened(start), before);
            NeverBegins(h, o, o.desk.approvals[id].invocationId) <==> id !in o.outstanding
  {
    hide Played, Paired, Begun;
    var o := Played(h, Opened(start), before);
    PlayedPaired(h, start, before);
    if id !in o.outstanding {
      forall events
        ensures !Begun(Played(h, o, events).desk, o.desk.approvals[id].invocationId)
      {
        SpentNeverBegins(h, o, events, id);
      }
    } else {
      var mine := AskedArguments(h, start, before, id);
      QueueingBegins(h, o, id, mine);
    }
  }

  // ---------- the second parking ----------

  /** The gateway parks a run, the approval comes, and the harness parks the run again. */
  function Reparked(run: string, invocation: string, id: string, ctx: Context, call: Call, who: Context): seq<Event> {
    [Act(0, 0, AddRun(run))] + [Act(0, 0, SetRun(run, Running))] + [Act(0, 0, Park(run, invocation, id, ctx, call))]
    + [Act(0, 0, Approve(id, who, None, 0, 0))] + [Act(0, 0, SetRun(run, WaitingApproval))]
  }

  /** The approval Reparked leaves. */
  function Given(h: Hash, run: string, invocation: string, ctx: Context, call: Call, who: Context, now: int): Approval {
    Approval(run, invocation, ctx.unitId, ctx.projectId, ctx.userId, call.assigneeRole, Digest(h, call.arguments),
             call.expiresAt, Approved, Some(who.userId), Some(now), None)
  }

  lemma ParksOnce(h: Hash, run: string, invocation: string, id: string, ctx: Context, call: Call)
    ensures Next(h, Next(h, Next(h, EMPTY, AddRun(run)), SetRun(run, Running)), Park(run, invocation, id, ctx, call))
            == Desk(map[run := WaitingApproval],
                    map[invocation := Invocation(run, call.toolId, Waiting, call.arguments)],
                    map[id := Approval(run, invocation, ctx.unitId, ctx.projectId, ctx.userId, call.assigneeRole,
                                       Digest(h, call.arguments), call.expiresAt, Pending, None, None, None)])
  {
    hide Digest;
  }

  lemma GivesOnce(h: Hash, d: Desk, run: string, invocation: string, id: string, ctx: Context, call: Call, who: Context,
                  now: int)
    requires call.assigneeRole in who.roles && who.userId != ctx.userId && now < call.expiresAt
    requires who.unitId == ctx.unitId && who.projectId == ctx.projectId
    requires d == Desk(map[run := WaitingApproval],
                       map[invocation := Invocation(run, call.toolId, Waiting, call.arguments)],
                       map[id := Approval(run, invocation, ctx.unitId, ctx.projectId, ctx.userId, call.assigneeRole,
                                          Digest(h, call.arguments), call.expiresAt, Pending, None, None, None)])
    ensures GoesThrough(h, d, Approve(id, who, None, now, now))
    ensures Next(h, Next(h, d, Approve(id, who, None, now, now)), SetRun(run, WaitingApproval))
            == d.(approvals := map[id := Given(h, run, invocation, ctx, call, who, now)])
  {
    hide Digest;
  }

  lemma GoesThroughOnce(h: Hash, o: Office, id: string, who: Context)
    requires GoesThrough(h, o.desk, Approve(id, who, None, o.now, o.now))
    ensures After(h, o, Act(0, 0, Approve(id, who, None, 0, 0)))
            == Office(Next(h, o.desk, Approve(id, who, None, o.now, o.now)), o.now, o.outstanding + {id})
  {
    hide Next, GoesThrough;
  }

  lemma ReparkedLeaves(h: Hash, start: int, run: string, invocation: string, id: string, ctx: Context, call: Call,
                       who: Context)
    requires call.assigneeRole in who.roles && who.userId != ctx.userId && start < call.expiresAt
    requires who.unitId == ctx.unitId && who.projectId == ctx.projectId
    ensures Played(h, Opened(start), Reparked(run, invocation, id, ctx, call, who))
            == Office(Desk(map[run := WaitingApproval],
                           map[invocation := Invocation(run, call.toolId, Waiting, call.arguments)],
                           map[id := Given(h, run, invocation, ctx, call, who, start)]),
                      start, {id})
  {
    hide Played, After, Next, Digest, Given, GoesThrough;
    var o := Opened(start);
    var a, b := Act(0, 0, AddRun(run)), Act(0, 0, SetRun(run, Running));
    var c, d := Act(0, 0, Park(run, invocation, id, ctx, call)), Act(0, 0, Approve(id, who, None, 0, 0));
    FourEvents(h, o, a, b, c, d);
    PlayedThen(h, o, [a] + [b] + [c] + [d], Act(0, 0, SetRun(run, WaitingApproval)));
    PlainAct(h, o, a.step);
    PlainAct(h, After(h, o, a), b.step);
    PlainAct(h, After(h, After(h, o, a), b), c.step);
    ParksOnce(h, run, invocation, id, ctx, call);
    var parked := After(h, After(h, After(h, o, a), b), c);
    GivesOnce(h, parked.desk, run, invocation, id, ctx, call, who, start);
    GoesThroughOnce(h, parked, id, who);
    PlainAct(h, After(h, parked, d), SetRun(run, WaitingApproval));
  }

  /**
   From no rows at all and for any call, approved in time by someone entitled to: once the harness has parked the run
   again only an assignment of its status can help, and once a worker has taken the resumption nothing can.
   */
  lemma ReparkLosesApproval(h: Hash, start: int, run: string, invocation: string, id: string, ctx: Context, call: Call,
                            who: Context, resumer: Context, admitted: bool)
    requires call.assigneeRole in who.roles && who.userId != ctx.userId && start < call.expiresAt
    requires who.unitId == ctx.unitId && who.projectId == ctx.projectId
    ensures var o := Played(h, Opened(start), Reparked(run, invocation, id, ctx, call, who));
            && id in o.desk.approvals && o.desk.approvals[id].decision == Approved
            && o.desk.approvals[id].invocationId == invocation && IsWaiting(o.desk, run)
            && invocation in o.desk.invocations && o.desk.invocations[invocation].status == Waiting
            && LostForGood(h, o, run, invocation)
            && NeverBegins(h, After(h, o, Act(0, 0, Resume(id, resumer, admitted))), invocation)
  {
    hide Played, Digest, LostForGood, NeverBegins, Reparked;
    var events := Reparked(run, invocation, id, ctx, call, who);
    ReparkedLeaves(h, start, run, invocation, id, ctx, call, who);
    LostExactlyWhen(h, start, events, id);
    PlayedThen(h, Opened(start), events, Act(0, 0, Resume(id, resumer, admitted)));
    NeverBeginsExactlyWhen(h, start, events + [Act(0, 0, Resume(id, resumer, admitted))], id);
  }
}
