/**
 Recording an audit event once under its idempotency key (`record_with_result` in backend/app/audit/recorder.py), by any
 number of recorders whose transactions interleave.

 A recorder looks the key up, inserts under a savepoint when it is missing, and looks again when the unique key refuses
 the insertion.  An insertion waits while another transaction holds an uncommitted one.
 */
module Recorder {
  import opened Outcomes

  /** What is recorded of a run; one stands for a whole request here. */
  datatype Event = Event(runId: string, status: string, errorCode: Option<string>, occurredAt: int)

  datatype Phase =
    | Started
    | Missed             // looked, and found nothing
    | Refused            // the unique key refused the insertion
    | Inserted           // returned its own event; the transaction is open
    | Committed          // returned its own event, which is there for good
    | Found(event: Event) // returned the event that was there
    | Raised
    | RolledBack

  /** What is committed under the key, and where each recorder stands. */
  datatype Table = Table(event: Option<Event>, phases: seq<Phase>)

  datatype Step = Advance(i: nat) | Commit(i: nat) | RollBack(i: nat)

  predicate Held(t: Table) {
    Inserted in t.phases
  }

  function Moved(t: Table, i: nat, phase: Phase): Table
    requires i < |t.phases|
  {
    t.(phases := t.phases[i := phase])
  }

  /** The next statement of one recorder. */
  function Advanced(t: Table, i: nat): Table
    requires i < |t.phases|
  {
    match t.phases[i]
    case Started => if t.event.Some? then Moved(t, i, Found(t.event.value)) else Moved(t, i, Missed)
    case Missed =>
      if t.event.Some? then Moved(t, i, Refused)
      else if Held(t) then t
      else Moved(t, i, Inserted)
    case Refused => if t.event.Some? then Moved(t, i, Found(t.event.value)) else Moved(t, i, Raised)
    case _ => t
  }

  function Next(requests: seq<Event>, t: Table, step: Step): Table {
    if step.i >= |t.phases| || step.i >= |requests| then t
    else match step
      case Advance(i) => Advanced(t, i)
      case Commit(i) =>
        if t.phases[i].Inserted? then Moved(t, i, Committed).(event := Some(requests[i])) else t
      case RollBack(i) => if t.phases[i].Committed? then t else Moved(t, i, RolledBack)
  }

  function Run(requests: seq<Event>, start: Option<Event>, steps: seq<Step>): Table {
    if steps == [] then Table(start, seq(|requests|, _ => Started))
    else Next(requests, Run(requests, start, steps[..|steps| - 1]), steps[|steps| - 1])
  }

  /** What a recorder has returned: an event, and whether it was inserted. */
  function Returned(requests: seq<Event>, t: Table, i: nat): Option<(Event, bool)> {
    if i >= |t.phases| || i >= |requests| then None
    else match t.phases[i]
    case Found(event) => Some((event, false))
    case Inserted => Some((requests[i], true))
    case Committed => Some((requests[i], true))
    case _ => None
  }

  /** No event is ever replaced, and whoever has returned has returned the one event there is. */
  ghost predicate Agreed(requests: seq<Event>, start: Option<Event>, t: Table) {
    && |t.phases| == |requests|
    && (start.Some? ==> t.event == start)
    && (forall i :: 0 <= i < |requests| ==> AgreesAt(requests, start, t, i))
    && (t.event.Some? && start.None? ==> exists i :: 0 <= i < |requests| && t.phases[i].Committed?)
    && (forall i, j ::
          (0 <= i < |requests| && 0 <= j < |requests| && Wrote(t.phases[i]) && Wrote(t.phases[j])) ==> i == j)
  }

  predicate Wrote(phase: Phase) {
    phase.Inserted? || phase.Committed?
  }

  ghost predicate AgreesAt(requests: seq<Event>, start: Option<Event>, t: Table, i: nat)
    requires i < |requests| == |t.phases|
  {
    match t.phases[i]
    case Found(event) => t.event == Some(event)
    case Committed => t.event == Some(requests[i]) && start.None?
    case Inserted => t.event.None?
    case Refused => t.event.Some?
    case Raised => false
    case _ => true
  }

  lemma StepAgrees(requests: seq<Event>, start: Option<Event>, t: Table, step: Step)
    requires Agreed(requests, start, t)
    ensures Agreed(requests, start, Next(requests, t, step))
  {
    var t' := Next(requests, t, step);
    if step.i < |requests| && t' != t {
      assert AgreesAt(requests, start, t, step.i);
      forall i | 0 <= i < |requests| ensures AgreesAt(requests, start, t', i) {
        assert AgreesAt(requests, start, t, i);
      }
      if t'.event.Some? && start.None? {
        var i :| 0 <= i < |requests| && if t.event.Some? then t.phases[i].Committed? else i == step.i;
        assert t'.phases[i].Committed?;
      }
      forall i, j | 0 <= i < |requests| && 0 <= j < |requests| && Wrote(t'.phases[i]) && Wrote(t'.phases[j])
        ensures i == j
      {
        assert AgreesAt(requests, start, t, i) && AgreesAt(requests, start, t, j);
        assert t.phases[i] in t.phases && t.phases[j] in t.phases;
      }
    }
  }

  /**
   However the transactions interleave, and whichever are rolled back: the key has one event, which never changes; every
   recorder that returned an event whose transaction is not still open returned that event; it was inserted by exactly
   one recorder, unless it was there before, and by none then; and the second look never misses.
   */
  lemma {:induction false} RecordersAgree(requests: seq<Event>, start: Option<Event>, steps: seq<Step>)
    ensures Agreed(requests, start, Run(requests, start, steps))
  {
    hide Next, Agreed;
    if steps == [] {
      StartAgrees(requests, start);
    } else {
      var n := |steps| - 1;
      RecordersAgree(requests, start, steps[..n]);
      StepAgrees(requests, start, Run(requests, start, steps[..n]), steps[n]);
    }
  }

  lemma StartAgrees(requests: seq<Event>, start: Option<Event>)
    ensures Agreed(requests, start, Run(requests, start, []))
  {
  }

  predicate Ended(phase: Phase) {
    phase.Committed? || phase.Found? || phase.RolledBack?
  }

  /** When all have ended, those that were not rolled back returned one and the same event, and the table holds it. */
  lemma EndedTogether(requests: seq<Event>, start: Option<Event>, steps: seq<Step>)
    requires forall phase :: phase in Run(requests, start, steps).phases ==> Ended(phase)
    ensures var t := Run(requests, start, steps);
            && |t.phases| == |requests|
            && (forall i :: 0 <= i < |requests| ==>
                  t.phases[i].RolledBack?
                  || (Returned(requests, t, i).Some? && t.event == Some(Returned(requests, t, i).value.0)))
            && ((exists i :: 0 <= i < |requests| && Returned(requests, t, i).Some? && Returned(requests, t, i).value.1)
                <==> start.None? && t.event.Some?)
  {
    hide Run;
    var t := Run(requests, start, steps);
    RecordersAgree(requests, start, steps);
    forall i | 0 <= i < |requests|
      ensures t.phases[i].RolledBack?
           || (Returned(requests, t, i).Some? && t.event == Some(Returned(requests, t, i).value.0))
      ensures (Returned(requests, t, i).Some? && Returned(requests, t, i).value.1) ==> start.None? && t.event.Some?
    {
      assert t.phases[i] in t.phases && AgreesAt(requests, start, t, i);
    }
    if t.event.Some? && start.None? {
      var i :| 0 <= i < |requests| && t.phases[i].Committed?;
      assert Returned(requests, t, i).value.1;
    }
  }

  lemma RunThen(requests: seq<Event>, start: Option<Event>, steps: seq<Step>, step: Step)
    ensures Run(requests, start, steps + [step]) == Next(requests, Run(requests, start, steps), step)
  {
    assert (steps + [step])[..|steps|] == steps;
  }

  /** What one step does: a commit makes the open insertion the event, a rollback undoes all but what was committed. */
  lemma EndsSay(requests: seq<Event>, t: Table, i: nat)
    requires i < |requests| == |t.phases|
    ensures var c := Next(requests, t, Commit(i));
            if t.phases[i].Inserted? then c == Table(Some(requests[i]), t.phases[i := Committed]) else c == t
    ensures var r := Next(requests, t, RollBack(i));
            if t.phases[i].Committed? then r == t else r == Table(t.event, t.phases[i := RolledBack])
    ensures Returned(requests, t, i).Some? ==>
              (Returned(requests, t, i).value.1 <==> t.phases[i].Inserted? || t.phases[i].Committed?)
  {
  }

  /** A recorder that nobody disturbs inserts its event exactly when the key is missing. */
  lemma Alone(request: Event, start: Option<Event>)
    ensures var t := Run([request], start, [Advance(0)] + [Advance(0)] + [Commit(0)]);
            && t.event == Some(if start.Some? then start.value else request)
            && Returned([request], t, 0) == Some((t.event.value, start.None?))
  {
    var none := Run([request], start, []);
    assert [] + [Advance(0)] == [Advance(0)];
    RunThen([request], start, [], Advance(0));
    RunThen([request], start, [Advance(0)], Advance(0));
    RunThen([request], start, [Advance(0)] + [Advance(0)], Commit(0));
    assert none.phases[0] == Started;
  }
}
