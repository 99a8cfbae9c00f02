/**
 The timed lease of MCP health checks (backend/app/mcp/health_service.py, `_check_sync` in
 backend/app/mcp/scheduler.py, `test_connection` in backend/app/mcp/service.py).

 A scheduled check takes a lease on the client's row, works without holding the row, and records a result, which
 clears the lease.  A manual test records a result without any lease, and so clears one that somebody else holds.
 */
module McpHealth {
  import opened Outcomes

  datatype Health = NotChecked | Healthy | Degraded | Offline

  datatype Config = Config(leaseSeconds: nat, intervalSeconds: nat, failureThreshold: nat)

  datatype Row = Row(
    leaseUntil: Option<int>,
    lastCheckedAt: Option<int>,
    lastSuccessAt: Option<int>,
    failureCount: nat,
    health: Health,
    errorCode: Option<string>,
    errorMessage: Option<string>)

  const NEW_ROW := Row(None, None, None, 0, NotChecked, None, None)

  datatype Outcome = Succeeded | Failed(code: Option<string>, message: Option<string>)

  const MESSAGE_LIMIT := 500

  // ---------- what each operation does to the row ----------

  predicate Due(c: Config, lastCheckedAt: Option<int>, now: int) {
    lastCheckedAt.None? || now - lastCheckedAt.value >= c.intervalSeconds
  }

  predicate LeaseFree(row: Row, now: int) {
    row.leaseUntil.None? || row.leaseUntil.value <= now
  }

  function Leased(c: Config, row: Row, now: int): Row {
    row.(leaseUntil := Some(now + c.leaseSeconds))
  }

  function Clipped(message: Option<string>): Option<string> {
    if message.None? || message.value == "" then None
    else if |message.value| <= MESSAGE_LIMIT then message
    else Some(message.value[..MESSAGE_LIMIT])
  }

  function Recorded(c: Config, row: Row, outcome: Outcome, now: int): Row {
    var checked := row.(lastCheckedAt := Some(now), leaseUntil := None);
    match outcome
    case Succeeded =>
      checked.(health := Healthy, lastSuccessAt := Some(now), failureCount := 0, errorCode := None,
               errorMessage := None)
    case Failed(code, message) =>
      checked.(failureCount := row.failureCount + 1,
               health := if row.failureCount + 1 >= c.failureThreshold then Offline else Degraded,
               errorCode := code, errorMessage := Clipped(message))
  }

  /** An empty message counts as none, and of a longer one the first 500 characters are kept. */
  lemma ClippedIs(message: Option<string>)
    ensures Clipped(message) == None <==> message == None || message == Some("")
    ensures Clipped(message).Some? ==>
              && |Clipped(message).value| <= 500 && Clipped(message).value <= message.value
              && (|Clipped(message).value| < 500 ==> Clipped(message) == message)
  {
  }

  /** The row as the health service updates it. */
  class ClientRow {
    const config: Config
    var leaseUntil: Option<int>
    var lastCheckedAt: Option<int>
    var lastSuccessAt: Option<int>
    var failureCount: nat
    var health: Health
    var errorCode: Option<string>
    var errorMessage: Option<string>

    constructor (config: Config)
      ensures this.config == config && Value() == NEW_ROW
    {
      this.config := config;
      leaseUntil, lastCheckedAt, lastSuccessAt := None, None, None;
      failureCount, health, errorCode, errorMessage := 0, NotChecked, None, None;
    }

    ghost function Value(): Row
      reads this
    {
      Row(leaseUntil, lastCheckedAt, lastSuccessAt, failureCount, health, errorCode, errorMessage)
    }

    predicate IsDue(now: int)
      reads this
    {
      Due(config, lastCheckedAt, now)
    }

    method AcquireLease(now: int) returns (acquired: bool)
      modifies this`leaseUntil
      ensures acquired <==> old(leaseUntil) == None || old(leaseUntil).value <= now
      ensures Value() == if acquired then Leased(config, old(Value()), now) else old(Value())
    {
      acquired := leaseUntil.None? || leaseUntil.value <= now;
      if acquired {
        leaseUntil := Some(now + config.leaseSeconds);
      }
    }

    method RecordResult(outcome: Outcome, now: int)
      modifies this
      ensures Value() == Recorded(config, old(Value()), outcome, now)
    {
      lastCheckedAt := Some(now);
      leaseUntil := None;
      if outcome.Succeeded? {
        health := Healthy;
        lastSuccessAt := Some(now);
        failureCount := 0;
        errorCode, errorMessage := None, None;
      } else {
        failureCount := failureCount + 1;
        errorCode := outcome.code;
        errorMessage := Clipped(outcome.message);
        if failureCount >= config.failureThreshold {
          health := Offline;
        } else {
          health := Degraded;
        }
      }
    }

    /** The first transaction of a scheduled check: due at one reading of the clock, leased at a later one. */
    method BeginCheck(dueAt: int, leasedAt: int) returns (started: bool)
      modifies this`leaseUntil
      ensures started <==> Due(config, old(lastCheckedAt), dueAt) && LeaseFree(old(Value()), leasedAt)
      ensures Value() == if started then Leased(config, old(Value()), leasedAt) else old(Value())
    {
      started := IsDue(dueAt);
      if started {
        started := AcquireLease(leasedAt);
      }
    }
  }

  // ---------- scheduled checks and manual tests of one client, interleaved ----------

  /**
   The client's row until it is deleted, the time, when each check that is still running took its lease, and every
   outcome recorded so far with its time.
   */
  datatype State = State(row: Option<Row>, now: int, active: seq<int>, recorded: seq<Recording>)

  datatype Recording = Recording(outcome: Outcome, at: int)

  function Start(now: int): State {
    State(Some(NEW_ROW), now, [], [])
  }

  datatype Step =
    | Wait(until: int)
    | Begin(dueAt: int, leasedAt: int, seen: Option<int>)
    | Finish(i: nat, outcome: Outcome)
    | Abandon(i: nat)
    | ManualTest(outcome: Outcome)
    | Delete

  /** Time moves on to `t`, and every running check still ends strictly within its lease. */
  predicate MayReach(c: Config, s: State, t: int) {
    s.now <= t && forall i :: 0 <= i < |s.active| ==> t < s.active[i] + c.leaseSeconds
  }

  predicate Enabled(c: Config, s: State, step: Step) {
    match step
    case Wait(until) => MayReach(c, s, until)
    case Begin(dueAt, leasedAt, _) => s.now <= dueAt <= leasedAt && MayReach(c, s, leasedAt)
    case Finish(i, _) => i < |s.active|
    case Abandon(i) => i < |s.active|
    case _ => true
  }

  function Remove(active: seq<int>, i: nat): seq<int>
    requires i < |active|
  {
    active[..i] + active[i + 1..]
  }

  function Record(c: Config, s: State, outcome: Outcome): State {
    if s.row.None? then s
    else s.(row := Some(Recorded(c, s.row.value, outcome, s.now)), recorded := s.recorded + [Recording(outcome, s.now)])
  }

  function Apply(c: Config, s: State, step: Step): State
    requires Enabled(c, s, step)
  {
    match step
    case Wait(until) => s.(now := until)
    case Begin(dueAt, leasedAt, seen) =>
      if s.row.Some? && Due(c, seen, dueAt) && LeaseFree(s.row.value, leasedAt) then
        s.(row := Some(Leased(c, s.row.value, leasedAt)), now := leasedAt, active := s.active + [leasedAt])
      else s.(now := leasedAt)
    case Finish(i, outcome) =>
      var recorded := Record(c, s, outcome);
      recorded.(active := Remove(s.active, i))
    case Abandon(i) => s.(active := Remove(s.active, i))
    case ManualTest(outcome) => Record(c, s, outcome)
    case Delete => s.(row := None)
  }

  /** What each step does: to the time, to the running checks, and to what was recorded. */
  lemma StepIs(c: Config, s: State, step: Step)
    requires Enabled(c, s, step)
    ensures var t := Apply(c, s, step);
            && t.now == (if step.Wait? then step.until else if step.Begin? then step.leasedAt else s.now)
            && (t.row.Some? <==> s.row.Some? && !step.Delete?)
            && (step.Begin? ==>
                  && (s.row.None? ==> t.active == s.active)
                  && (s.row.Some? ==>
                        var until := s.row.value.leaseUntil;
                        var begins := && (until.None? || until.value <= step.leasedAt)
                                      && (step.seen.None? || step.seen.value + c.intervalSeconds <= step.dueAt);
                        t.active == if begins then s.active + [step.leasedAt] else s.active))
            && (step.Finish? || step.Abandon? ==> multiset(t.active) + multiset{s.active[step.i]} == multiset(s.active))
            && (step.Wait? || step.ManualTest? || step.Delete? ==> t.active == s.active)
            && t.recorded == if (step.Finish? || step.ManualTest?) && s.row.Some?
                             then s.recorded + [Recording(step.outcome, s.now)] else s.recorded
  {
    if step.Finish? || step.Abandon? {
      var i := step.i;
      assert s.active == s.active[..i] + [s.active[i]] + s.active[i + 1..];
    }
  }

  /** Whether it is due is read in the transaction that takes the lease. */
  predicate Atomic(s: State, step: Step) {
    step.Begin? && s.row.Some? ==> step.seen == s.row.value.lastCheckedAt
  }

  function Run(c: Config, s: State, steps: seq<Step>): Option<State> {
    if steps == [] then Some(s)
    else match Run(c, s, steps[..|steps| - 1])
      case Some(t) =>
        var step := steps[|steps| - 1];
        if Enabled(c, t, step) && Atomic(t, step) then Some(Apply(c, t, step)) else None
      case None => None
  }

  // ---------- checks do not overlap ----------

  /** The one running check holds its lease, unless a result was recorded since it began. */
  predicate Guarded(c: Config, s: State) {
    && |s.active| <= 1
    && (forall i :: 0 <= i < |s.active| ==> s.active[i] <= s.now)
    && (s.row.Some? && s.active != [] ==>
          || s.row.value.leaseUntil == Some(s.active[0] + c.leaseSeconds)
          || (s.row.value.lastCheckedAt.Some? && s.row.value.lastCheckedAt.value >= s.active[0]))
  }

  lemma StepGuarded(c: Config, s: State, step: Step)
    requires Guarded(c, s) && Enabled(c, s, step) && Atomic(s, step)
    requires c.intervalSeconds >= c.leaseSeconds
    ensures Guarded(c, Apply(c, s, step))
  {
    hide Recorded, Clipped;
    if s.row.Some? && (step.Finish? || step.ManualTest?) {
      RecordedNow(c, s.row.value, step.outcome, s.now);
    }
    if step.Begin? {
      BeginGuarded(c, s, step);
    }
  }

  lemma RecordedNow(c: Config, row: Row, outcome: Outcome, now: int)
    ensures Recorded(c, row, outcome, now).lastCheckedAt == Some(now)
  {
  }

  /** While a check runs no other is due with the lease free. */
  lemma BeginGuarded(c: Config, s: State, step: Step)
    requires step.Begin? && Guarded(c, s) && Enabled(c, s, step) && Atomic(s, step)
    requires c.intervalSeconds >= c.leaseSeconds
    ensures Guarded(c, Apply(c, s, step))
  {
    hide Recorded;
  }

  lemma {:induction false} RunGuarded(c: Config, start: int, steps: seq<Step>)
    requires c.intervalSeconds >= c.leaseSeconds && Run(c, Start(start), steps).Some?
    ensures Guarded(c, Run(c, Start(start), steps).value)
  {
    if steps != [] {
      var n := |steps| - 1;
      RunGuarded(c, start, steps[..n]);
      StepGuarded(c, Run(c, Start(start), steps[..n]).value, steps[n]);
    }
  }

  /** No run in which every check ends within its lease has two checks running at once. */
  ghost predicate NeverOverlap(c: Config) {
    forall start, steps :: Run(c, Start(start), steps).Some? ==> |Run(c, Start(start), steps).value.active| <= 1
  }

  /** A manual test just after a check began clears its lease, and a short interval lets a second check begin. */
  function Overlap(c: Config): seq<Step> {
    [Begin(0, 0, None), ManualTest(Succeeded), Begin(c.intervalSeconds, c.intervalSeconds, Some(0))]
  }

  lemma RunOneMore(c: Config, s: State, steps: seq<Step>, t: State, step: Step)
    requires Run(c, s, steps) == Some(t) && Enabled(c, t, step) && Atomic(t, step)
    ensures Run(c, s, steps + [step]) == Some(Apply(c, t, step))
  {
    assert (steps + [step])[..|steps|] == steps;
  }

  lemma OverlapRuns(c: Config)
    requires c.intervalSeconds < c.leaseSeconds
    ensures Run(c, Start(0), Overlap(c)).Some? && |Run(c, Start(0), Overlap(c)).value.active| == 2
  {
    var steps := Overlap(c);
    var s1 := Apply(c, Start(0), steps[0]);
    RunOneMore(c, Start(0), [], Start(0), steps[0]);
    RunOneMore(c, Start(0), [steps[0]], s1, steps[1]);
    RunOneMore(c, Start(0), [steps[0]] + [steps[1]], Apply(c, s1, steps[1]), steps[2]);
    assert [] + [steps[0]] == [steps[0]];
    assert [steps[0]] + [steps[1]] + [steps[2]] == steps;
  }

  /** Scheduled checks never overlap exactly when the interval is no shorter than the lease. */
  lemma NeverOverlapExactlyWhen(c: Config)
    ensures NeverOverlap(c) <==> c.intervalSeconds >= c.leaseSeconds
  {
    if c.intervalSeconds >= c.leaseSeconds {
      forall start, steps | Run(c, Start(start), steps).Some?
        ensures |Run(c, Start(start), steps).value.active| <= 1
      {
        RunGuarded(c, start, steps);
      }
    } else {
      OverlapRuns(c);
    }
  }

  /**
   The due test must belong to the transaction that takes the lease: a check that acts on a reading from before a
   manual test begins beside the one the test interrupted, whatever the interval.
   */
  lemma StaleReadingOverlaps(c: Config)
    requires c.leaseSeconds > 0
    ensures var s1 := Apply(c, Start(0), Begin(0, 0, None));
            var s2 := Apply(c, s1, ManualTest(Succeeded));
            && Enabled(c, s2, Begin(0, 0, None)) && !Atomic(s2, Begin(0, 0, None))
            && |Apply(c, s2, Begin(0, 0, None)).active| == 2
  {
  }

  // ---------- the failure count ----------

  function TrailingFailures(recorded: seq<Recording>): nat {
    if recorded == [] || recorded[|recorded| - 1].outcome.Succeeded? then 0
    else 1 + TrailingFailures(recorded[..|recorded| - 1])
  }

  function HealthAfter(c: Config, recorded: seq<Recording>): Health {
    if recorded == [] then NotChecked
    else if TrailingFailures(recorded) == 0 then Healthy
    else if TrailingFailures(recorded) >= c.failureThreshold then Offline
    else Degraded
  }

  /** When the last success was recorded, if any was. */
  function LastSuccess(recorded: seq<Recording>): Option<int> {
    if recorded == [] then None
    else if recorded[|recorded| - 1].outcome.Succeeded? then Some(recorded[|recorded| - 1].at)
    else LastSuccess(recorded[..|recorded| - 1])
  }

  /** Everything the row says of the past, from what was recorded. */
  predicate Counted(c: Config, s: State) {
    s.row.Some? ==>
      var row, n := s.row.value, |s.recorded|;
      && row.failureCount == TrailingFailures(s.recorded) && row.health == HealthAfter(c, s.recorded)
      && row.lastSuccessAt == LastSuccess(s.recorded)
      && row.lastCheckedAt == (if n == 0 then None else Some(s.recorded[n - 1].at))
      && (n > 0 && s.recorded[n - 1].outcome.Failed? ==>
            && row.errorCode == s.recorded[n - 1].outcome.code
            && row.errorMessage == Clipped(s.recorded[n - 1].outcome.message))
      && (n == 0 || s.recorded[n - 1].outcome.Succeeded? ==> row.errorCode.None? && row.errorMessage.None?)
  }

  lemma RecordCounted(c: Config, s: State, outcome: Outcome)
    requires Counted(c, s)
    ensures Counted(c, Record(c, s, outcome))
  {
    var recorded := s.recorded + [Recording(outcome, s.now)];
    assert recorded[..|recorded| - 1] == s.recorded;
  }

  lemma StepCounted(c: Config, s: State, step: Step)
    requires Counted(c, s) && Enabled(c, s, step)
    ensures Counted(c, Apply(c, s, step))
  {
    hide Recorded, Record, Counted, MayReach;
    if step.Finish? || step.ManualTest? {
      RecordCounted(c, s, step.outcome);
      SameRecord(c, Record(c, s, step.outcome), Apply(c, s, step));
    } else {
      SameRecord(c, s, Apply(c, s, step));
    }
  }

  /** Taking a lease, waiting, or losing the row tells nothing new of the past. */
  lemma SameRecord(c: Config, s: State, t: State)
    requires Counted(c, s) && t.recorded == s.recorded
    requires t.row.Some? ==> s.row.Some? && t.row.value.(leaseUntil := None) == s.row.value.(leaseUntil := None)
    ensures Counted(c, t)
  {
    hide TrailingFailures, HealthAfter, LastSuccess, Clipped;
    if t.row.Some? {
      SamePast(s.row.value, t.row.value);
    }
  }

  lemma SamePast(r: Row, q: Row)
    requires q.(leaseUntil := None) == r.(leaseUntil := None)
    ensures q == r.(leaseUntil := q.leaseUntil)
  {
    assert q == q.(leaseUntil := None).(leaseUntil := q.leaseUntil);
  }

  /**
   After any run the row tells what was recorded: failures since the last success, scheduled or manual, and the status
   they fix, the times of the last check and the last success, and the last error while there is one.
   */
  lemma {:induction false} RunCounted(c: Config, start: int, steps: seq<Step>)
    requires Run(c, Start(start), steps).Some?
    ensures Counted(c, Run(c, Start(start), steps).value)
  {
    hide Apply, Enabled, Atomic, Counted;
    if steps == [] {
      StartCounted(c, start);
    } else {
      var n := |steps| - 1;
      RunCounted(c, start, steps[..n]);
      StepCounted(c, Run(c, Start(start), steps[..n]).value, steps[n]);
    }
  }

  lemma StartCounted(c: Config, start: int)
    ensures Counted(c, Start(start))
  {
  }
}
