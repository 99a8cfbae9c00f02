/**
 Writing one audit event per existing run, batch by batch (backend/app/audit/backfill.py), on a recorder that inserts
 an event once (`record_with_result` in backend/app/audit/recorder.py).
 */
module Backfill {
  import opened Outcomes
  import opened Canonical
  import Recorder

  datatype Run = Run(id: string, status: string, createdAt: int)

  type Event = Recorder.Event

  type Events = map<string, Event>

  /** Runs in the order of their ids, each once. */
  predicate Ordered(runs: seq<Run>) {
    forall i, j :: 0 <= i < j < |runs| ==> Less(runs[i].id, runs[j].id)
  }

  const PREFIX := "audit-backfill:agent:"

  function KeyOf(r: Run): string {
    PREFIX + r.id
  }

  /** A status the table does not know counts as failed, with a code that says so. */
  function AuditStatus(status: string): (string, Option<string>) {
    if status == "queued" || status == "running" then ("started", None)
    else if status == "completed" then ("succeeded", None)
    else if status == "failed" || status == "cancelled" then (status, None)
    else ("failed", Some("unknown_agent_run_status"))
  }

  function EventOf(r: Run): Event {
    Recorder.Event(r.id, AuditStatus(r.status).0, AuditStatus(r.status).1, r.createdAt)
  }

  /** The event of a run carries its id and time, and what its status means for an audit. */
  lemma EventSays(r: Run)
    ensures var e := EventOf(r);
            && KeyOf(r) == "audit-backfill:agent:" + r.id
            && e.runId == r.id && e.occurredAt == r.createdAt
            && (e.status == "started" <==> r.status == "queued" || r.status == "running")
            && (e.status == "succeeded" <==> r.status == "completed")
            && (e.status == "cancelled" <==> r.status == "cancelled")
            && (e.status == "failed" <==>
                r.status != "queued" && r.status != "running" && r.status != "completed" && r.status != "cancelled")
            && (e.errorCode == None <==> r.status in ["queued", "running", "completed", "failed", "cancelled"])
            && (e.errorCode.Some? ==> e.errorCode == Some("unknown_agent_run_status"))
  {
    assert |"started"| == 7 && |"succeeded"| == 9 && |"cancelled"| == 9 && |"failed"| == 6;
    assert "succeeded"[0] != "cancelled"[0];
  }

  /** Insert, or return the event that is there, as a recorder does that nobody disturbs (`Recorder.Alone`). */
  method RecordWithResult(events: Events, key: string, event: Event) returns (after: Events, inserted: bool)
    ensures inserted <==> key !in events
    ensures after == if key in events then events else events[key := event]
  {
    if key in events {
      return events, false;
    }
    return events[key := event], true;
  }

  // ---------- the table the loop leaves ----------

  function Filled(events: Events, runs: seq<Run>): Events {
    if runs == [] then events
    else
      var earlier := Filled(events, runs[..|runs| - 1]);
      var last := runs[|runs| - 1];
      if KeyOf(last) in earlier then earlier else earlier[KeyOf(last) := EventOf(last)]
  }

  function MissingCount(events: Events, runs: seq<Run>): nat {
    if runs == [] then 0
    else MissingCount(events, runs[..|runs| - 1]) + if KeyOf(runs[|runs| - 1]) in events then 0 else 1
  }

  lemma KeysInjective(a: Run, b: Run)
    ensures KeyOf(a) == KeyOf(b) <==> a.id == b.id
  {
    assert KeyOf(a)[|PREFIX|..] == a.id && KeyOf(b)[|PREFIX|..] == b.id;
  }

  lemma {:induction false} FilledKeys(events: Events, runs: seq<Run>, key: string)
    ensures key in Filled(events, runs) <==> key in events || exists i :: 0 <= i < |runs| && KeyOf(runs[i]) == key
    ensures key in events ==> Filled(events, runs)[key] == events[key]
  {
    if runs != [] {
      FilledKeys(events, runs[..|runs| - 1], key);
    }
  }

  /** After the loop every run has exactly its own event, unless there was one under its key before. */
  lemma {:induction false} FilledHas(events: Events, runs: seq<Run>, i: nat)
    requires Ordered(runs) && i < |runs|
    ensures KeyOf(runs[i]) in Filled(events, runs)
    ensures Filled(events, runs)[KeyOf(runs[i])] ==
            if KeyOf(runs[i]) in events then events[KeyOf(runs[i])] else EventOf(runs[i])
  {
    var n := |runs| - 1;
    LessTotal(runs[i].id, runs[n].id);
    KeysInjective(runs[i], runs[n]);
    if i < n {
      FilledHas(events, runs[..n], i);
    } else {
      NotYet(events, runs[..n], runs[n]);
    }
  }

  lemma NotYet(events: Events, runs: seq<Run>, r: Run)
    requires forall i :: 0 <= i < |runs| ==> Less(runs[i].id, r.id)
    ensures KeyOf(r) in Filled(events, runs) <==> KeyOf(r) in events
    ensures KeyOf(r) in events ==> Filled(events, runs)[KeyOf(r)] == events[KeyOf(r)]
  {
    FilledKeys(events, runs, KeyOf(r));
    if i :| 0 <= i < |runs| && KeyOf(runs[i]) == KeyOf(r) {
      KeysInjective(runs[i], r);
      LessTotal(runs[i].id, r.id);
    }
  }

  // ---------- the loop ----------

  /** The first `size` runs whose id is greater than the last one seen, as the query gives them. */
  function NextBatch(runs: seq<Run>, last: Option<string>, size: int): seq<Run>
    requires size > 0
  {
    if runs == [] then []
    else if last.Some? && !Less(last.value, runs[0].id) then NextBatch(runs[1..], last, size)
    else if |runs| <= size then runs
    else runs[..size]
  }

  lemma {:induction false} BatchAfter(runs: seq<Run>, n: nat, size: int)
    requires Ordered(runs) && n <= |runs| && size > 0
    ensures var last := if n == 0 then None else Some(runs[n - 1].id);
            NextBatch(runs, last, size) == if |runs| - n <= size then runs[n..] else runs[n..n + size]
    decreases n
  {
    if n == 0 {
      assert runs[0..] == runs && (|runs| > size ==> runs[0..size] == runs[..size]);
    } else {
      LessTotal(runs[n - 1].id, runs[0].id);
      SkipSeen(runs, n, size);
    }
  }

  lemma {:induction false} SkipSeen(runs: seq<Run>, n: nat, size: int)
    requires Ordered(runs) && 0 < n <= |runs| && size > 0
    ensures NextBatch(runs, Some(runs[n - 1].id), size) == if |runs| - n <= size then runs[n..] else runs[n..n + size]
    decreases n
  {
    LessTotal(runs[n - 1].id, runs[0].id);
    if n > 1 {
      SkipSeen(runs[1..], n - 1, size);
      assert runs[1..][n - 2] == runs[n - 1] && runs[1..][n - 1..] == runs[n..];
      assert |runs| - n > size ==> runs[1..][n - 1..n - 1 + size] == runs[n..n + size];
    } else if |runs| > 1 {
      assert Less(runs[0].id, runs[1].id);
      assert runs[1..][0] == runs[1];
      assert |runs| - 1 > size ==> runs[1..][..size] == runs[1..1 + size];
    }
  }

  lemma OneMore(events: Events, runs: seq<Run>, n: nat)
    requires Ordered(runs) && n < |runs|
    ensures var done := Filled(events, runs[..n]);
            var key := KeyOf(runs[n]);
            && (key in done <==> key in events)
            && Filled(events, runs[..n + 1]) == (if key in done then done else done[key := EventOf(runs[n])])
            && MissingCount(events, runs[..n + 1]) == MissingCount(events, runs[..n]) + if key in done then 0 else 1
  {
    hide KeyOf, EventOf;
    assert runs[..n + 1][..n] == runs[..n];
    NotYet(events, runs[..n], runs[n]);
  }

  datatype Ending = Finished | Crashed

  /** How many of so many runs a number of batches covers. */
  function Covered(runs: nat, size: int, batches: nat): nat
    requires size > 0
  {
    if batches == 0 then 0
    else if Covered(runs, size, batches - 1) + size <= runs then Covered(runs, size, batches - 1) + size
    else runs
  }

  /** The call goes on to its next batch as long as the batches before the last one do not cover all runs. */
  predicate Reached(runs: nat, size: int, batches: nat)
    requires size > 0
  {
    batches == 0 || Covered(runs, size, batches - 1) < runs
  }

  lemma {:induction false} NotReachedLater(runs: nat, size: int, batches: nat, later: nat)
    requires size > 0 && Covered(runs, size, batches) == runs && batches < later
    ensures !Reached(runs, size, later)
    decreases later
  {
    if later == batches + 1 {
    } else {
      NotReachedLater(runs, size, batches, later - 1);
      CoveredStays(runs, size, batches, later - 1);
    }
  }

  lemma {:induction false} CoveredStays(runs: nat, size: int, batches: nat, later: nat)
    requires size > 0 && Covered(runs, size, batches) == runs && batches <= later
    ensures Covered(runs, size, later) == runs
    decreases later
  {
    if batches < later {
      CoveredStays(runs, size, batches, later - 1);
    }
  }

  /** The runs of one batch, from the `n`-th on. */
  method RecordBatch(runs: seq<Run>, events: Events, n: nat, rows: seq<Run>, before: Events)
    returns (after: Events, inserted: nat)
    requires Ordered(runs) && n + |rows| <= |runs| && rows == runs[n..n + |rows|]
    requires before == Filled(events, runs[..n])
    ensures after == Filled(events, runs[..n + |rows|])
    ensures MissingCount(events, runs[..n]) + inserted == MissingCount(events, runs[..n + |rows|])
  {
    hide AuditStatus, KeyOf, EventOf, Ordered, Filled, MissingCount;
    after, inserted := before, 0;
    for k := 0 to |rows|
      invariant after == Filled(events, runs[..n + k])
      invariant MissingCount(events, runs[..n]) + inserted == MissingCount(events, runs[..n + k])
    {
      var r := rows[k];
      assert r == runs[n + k];
      OneMore(events, runs, n + k);
      var isNew;
      after, isNew := RecordWithResult(after, KeyOf(r), EventOf(r));
      if isNew {
        inserted := inserted + 1;
      }
    }
  }

  /**
   One call.  `crashAfter` batches have been committed when the process dies, if it does.  `visited` are the runs of
   the committed batches.
   */
  method BackfillRuns(runs: seq<Run>, events: Events, batchSize: int, crashAfter: Option<nat>)
    returns (ending: Result<Ending, ()>, after: Events, inserted: nat, visited: seq<Run>)
    requires Ordered(runs)
    ensures ending.Err? <==> batchSize <= 0
    ensures ending.Err? ==> after == events
    ensures visited <= runs && (ending == Ok(Finished) ==> visited == runs)
    ensures ending == Ok(Crashed) <==> batchSize > 0 && crashAfter.Some? && Reached(|runs|, batchSize, crashAfter.value)
    ensures ending == Ok(Crashed) ==> |visited| == Covered(|runs|, batchSize, crashAfter.value)
    ensures ending.Ok? ==> after == Filled(events, visited) && inserted == MissingCount(events, visited)
  {
    hide Ordered, Filled, MissingCount, NextBatch, Reached, Covered;
    if batchSize <= 0 {
      return Err(()), events, 0, [];
    }
    after, inserted, visited := events, 0, [];
    NothingFilled(events);
    var last: Option<string> := None;
    var batches := 0;
    StartReached(|runs|, batchSize);
    while true
      invariant |visited| == Covered(|runs|, batchSize, batches) && Reached(|runs|, batchSize, batches)
      invariant crashAfter.Some? ==> batches <= crashAfter.value
      invariant |visited| <= |runs| && visited == runs[..|visited|]
      invariant after == Filled(events, visited) && inserted == MissingCount(events, visited)
      invariant last == if visited == [] then None else Some(runs[|visited| - 1].id)
      decreases |runs| - |visited|
    {
      if crashAfter == Some(batches) {
        return Ok(Crashed), after, inserted, visited;
      }
      var n := |visited|;
      BatchAfter(runs, n, batchSize);
      var rows := NextBatch(runs, last, batchSize);
      if rows == [] {
        if crashAfter.Some? {
          NotReachedLater(|runs|, batchSize, batches, crashAfter.value);
        }
        return Ok(Finished), after, inserted, visited;
      }
      var more;
      after, more := RecordBatch(runs, events, n, rows, after);
      inserted := inserted + more;
      visited := visited + rows;
      assert visited == runs[..n + |rows|];
      last := Some(rows[|rows| - 1].id);
      NextReached(|runs|, batchSize, batches);
      batches := batches + 1;
    }
  }

  lemma StartReached(runs: nat, size: int)
    requires size > 0
    ensures Reached(runs, size, 0) && Covered(runs, size, 0) == 0
  {
  }

  lemma NextReached(runs: nat, size: int, batches: nat)
    requires size > 0 && Covered(runs, size, batches) < runs
    ensures Reached(runs, size, batches + 1)
    ensures var n := Covered(runs, size, batches);
            Covered(runs, size, batches + 1) == n + if runs - n <= size then runs - n else size
  {
  }

  lemma NothingFilled(events: Events)
    ensures Filled(events, []) == events && MissingCount(events, []) == 0
  {
  }

  // ---------- running it again ----------

  lemma {:induction false} FilledSame(events: Events, runs: seq<Run>)
    requires forall i :: 0 <= i < |runs| ==> KeyOf(runs[i]) in events
    ensures Filled(events, runs) == events && MissingCount(events, runs) == 0
  {
    if runs != [] {
      FilledSame(events, runs[..|runs| - 1]);
    }
  }

  lemma {:induction false} FilledAppend(events: Events, a: seq<Run>, b: seq<Run>)
    ensures Filled(events, a + b) == Filled(Filled(events, a), b)
  {
    if b == [] {
      assert a + b == a;
    } else {
      var n := |b| - 1;
      assert (a + b)[..|a + b| - 1] == a + b[..n];
      FilledAppend(events, a, b[..n]);
    }
  }

  /** A rerun after a crash at any batch, and likewise one after a complete call, reaches the same table. */
  lemma RerunReachesSame(events: Events, runs: seq<Run>, n: nat)
    requires Ordered(runs) && n <= |runs|
    ensures Filled(Filled(events, runs[..n]), runs) == Filled(events, runs)
  {
    var done := Filled(events, runs[..n]);
    forall i | 0 <= i < |runs[..n]| ensures KeyOf(runs[..n][i]) in done {
      FilledHas(events, runs[..n], i);
    }
    FilledSame(done, runs[..n]);
    assert runs == runs[..n] + runs[n..];
    FilledAppend(done, runs[..n], runs[n..]);
    FilledAppend(events, runs[..n], runs[n..]);
  }

  /** What a crashed call and its rerun insert together is what an undisturbed one inserts. */
  lemma {:induction false} RerunInsertsRest(events: Events, runs: seq<Run>, n: nat)
    requires Ordered(runs) && n <= |runs|
    ensures MissingCount(events, runs[..n]) + MissingCount(Filled(events, runs[..n]), runs)
            == MissingCount(events, runs)
    decreases |runs|
  {
    if n == |runs| {
      assert runs[..n] == runs;
      forall i | 0 <= i < |runs| ensures KeyOf(runs[i]) in Filled(events, runs) {
        FilledHas(events, runs, i);
      }
      FilledSame(Filled(events, runs), runs);
    } else {
      var m := |runs| - 1;
      RerunInsertsRest(events, runs[..m], n);
      assert runs[..m][..n] == runs[..n];
      NotYet(events, runs[..n], runs[m]);
    }
  }
}
