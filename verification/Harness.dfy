/**
 The model and tool loop of one agent run (backend/app/runtime/harness.py, `execute`, `_build_messages`, `_complete`).

 The model and the tools are functions of how often they were called and with what, so every result below holds for
 every behaviour of either.
 */
module Harness {
  import opened Outcomes
  import opened Canonical
  import opened PyDict
  import opened TeamDefinition

  const MAX_MODEL_ITERATIONS := 4
  const MAX_TOOL_CALLS := 8

  datatype Call = Call(id: string, name: string, arguments: Dict)

  /** A call as a message carries it, its arguments printed. */
  datatype WireCall = WireCall(id: string, name: string, arguments: string)

  datatype Message =
    | Plain(role: string, content: string)
    | Assistant(text: Option<string>, calls: seq<WireCall>)
    | Reply(callId: string, result: string)

  datatype Usage = Usage(prompt: Option<int>, completion: Option<int>, total: Option<int>)

  datatype Turn =
    | Answer(text: Option<string>, calls: seq<Call>, usage: Usage)
    | ModelFailed
    | ModelCrashed

  datatype ToolTurn =
    | Value(value: Dict)
    | ToolError(code: string)
    | ToolCrashed

  type Model = (nat, seq<Message>) -> Turn
  type Tools = (nat, Call) -> ToolTurn

  datatype Status = Queued | Running | WaitingApproval | Completed | Failed

  datatype Outcome =
    | Done(content: string, usage: Usage)
    | Broke(code: string)
    | Parked(at: nat)

  // ---------- transcripts ----------

  /** Every assistant message that calls tools is followed at once by their replies, in order; no reply stands alone. */
  predicate WellFormedTranscript(ms: seq<Message>)
    decreases |ms|
  {
    ms == [] ||
    match ms[0]
    case Plain(_, _) => WellFormedTranscript(ms[1..])
    case Reply(_, _) => false
    case Assistant(_, calls) =>
      && |ms| > |calls|
      && Answered(ms[1..1 + |calls|], calls)
      && WellFormedTranscript(ms[1 + |calls|..])
  }

  /** Replies to the first of the calls, in order. */
  predicate Answers(replies: seq<Message>, calls: seq<WireCall>) {
    && |replies| <= |calls|
    && forall k :: 0 <= k < |replies| ==> replies[k].Reply? && replies[k].callId == calls[k].id
  }

  predicate Answered(replies: seq<Message>, calls: seq<WireCall>) {
    |replies| == |calls| && Answers(replies, calls)
  }

  function Wire(call: Call): WireCall {
    WireCall(call.id, call.name, Dumps(call.arguments))
  }

  function Wires(calls: seq<Call>): (r: seq<WireCall>)
    ensures |r| == |calls|
    ensures forall k :: 0 <= k < |r| ==> r[k] == WireCall(calls[k].id, calls[k].name, Dumps(calls[k].arguments))
  {
    seq(|calls|, k requires 0 <= k < |calls| => Wire(calls[k]))
  }

  lemma {:induction false} TranscriptAppend(ms: seq<Message>, ns: seq<Message>)
    requires WellFormedTranscript(ms) && WellFormedTranscript(ns)
    ensures WellFormedTranscript(ms + ns)
    decreases |ms|
  {
    hide Answers;
    if ms == [] {
      assert ms + ns == ns;
    } else {
      var all := ms + ns;
      assert all[0] == ms[0];
      match ms[0]
      case Assistant(_, calls) =>
        var n := 1 + |calls|;
        TranscriptAppend(ms[n..], ns);
        assert all[n..] == ms[n..] + ns;
        assert all[1..n] == ms[1..n];
      case Reply(_, _) =>
      case Plain(_, _) =>
        TranscriptAppend(ms[1..], ns);
        assert all[1..] == ms[1..] + ns;
    }
  }

  lemma ExchangeWellFormed(text: Option<string>, calls: seq<WireCall>, replies: seq<Message>)
    requires Answered(replies, calls)
    ensures WellFormedTranscript([Assistant(text, calls)] + replies)
  {
    var ms := [Assistant(text, calls)] + replies;
    assert ms[1..1 + |calls|] == replies && ms[1 + |calls|..] == [];
  }

  // ---------- the transcript a run starts from ----------

  datatype Invocation = Invocation(call: Call, completed: bool, result: Option<Dict>)

  const MAX_CONVERSATION_MESSAGES := 100

  const ROLES: seq<string> := ["user", "assistant", "system"]

  function Conversation(history: seq<(string, string)>): seq<Message> {
    if history == [] then []
    else
      var (role, content) := history[|history| - 1];
      Conversation(history[..|history| - 1]) + if role in ROLES then [Plain(role, content)] else []
  }

  function Latest(ms: seq<Message>): seq<Message> {
    if |ms| <= MAX_CONVERSATION_MESSAGES then ms else ms[|ms| - MAX_CONVERSATION_MESSAGES..]
  }

  function ReplayOf(one: Invocation): seq<Message> {
    if one.completed && one.result.Some? then
      [Assistant(None, [Wire(one.call)]), Reply(one.call.id, Dumps(one.result.value))]
    else []
  }

  function Replayed(invocations: seq<Invocation>): seq<Message> {
    if invocations == [] then []
    else Replayed(invocations[..|invocations| - 1]) + ReplayOf(invocations[|invocations| - 1])
  }

  predicate AllPlain(ms: seq<Message>) {
    forall m :: m in ms ==> m.Plain?
  }

  lemma {:induction false} PlainWellFormed(ms: seq<Message>)
    requires AllPlain(ms)
    ensures WellFormedTranscript(ms)
    decreases |ms|
  {
    if ms != [] {
      PlainWellFormed(ms[1..]);
    }
  }

  lemma {:induction false} ReplayedWellFormed(invocations: seq<Invocation>)
    ensures WellFormedTranscript(Replayed(invocations))
  {
    hide WellFormedTranscript, Dumps;
    PlainWellFormed([]);
    if invocations != [] {
      var earlier, last := invocations[..|invocations| - 1], invocations[|invocations| - 1];
      ReplayedWellFormed(earlier);
      if last.completed && last.result.Some? {
        var reply := Reply(last.call.id, Dumps(last.result.value));
        ExchangeWellFormed(None, [Wire(last.call)], [reply]);
        assert [Assistant(None, [Wire(last.call)])] + [reply] == [Assistant(None, [Wire(last.call)]), reply];
        TranscriptAppend(Replayed(earlier), [Assistant(None, [Wire(last.call)]), reply]);
      } else {
        assert Replayed(invocations) == Replayed(earlier);
      }
    }
  }

  lemma {:induction false} ConversationPlain(history: seq<(string, string)>)
    ensures AllPlain(Conversation(history))
  {
    if history != [] {
      ConversationPlain(history[..|history| - 1]);
    }
  }

  /** Conversation and replays keep their order, item by item: three roles speak, completed calls are replayed. */
  lemma OpeningItems(a: seq<(string, string)>, b: seq<(string, string)>, one: Invocation, role: string, content: string)
    ensures Conversation(a + b) == Conversation(a) + Conversation(b)
    ensures Conversation([(role, content)]) ==
            if role == "user" || role == "assistant" || role == "system" then [Plain(role, content)] else []
    ensures Replayed([one]) ==
            if one.completed && one.result.Some? then
              [Assistant(None, [WireCall(one.call.id, one.call.name, Dumps(one.call.arguments))]),
               Reply(one.call.id, Dumps(one.result.value))]
            else []
  {
    hide Dumps;
    ConversationAppend(a, b);
  }

  lemma {:induction false} ConversationAppend(a: seq<(string, string)>, b: seq<(string, string)>)
    ensures Conversation(a + b) == Conversation(a) + Conversation(b)
    decreases |b|
  {
    if b == [] {
      assert a + b == a;
    } else {
      var n := |b| - 1;
      assert (a + b)[..|a + b| - 1] == a + b[..n] && (a + b)[|a + b| - 1] == b[n];
      ConversationAppend(a, b[..n]);
    }
  }

  lemma {:induction false} ReplayedAppend(a: seq<Invocation>, b: seq<Invocation>)
    ensures Replayed(a + b) == Replayed(a) + Replayed(b)
    decreases |b|
  {
    hide ReplayOf;
    if b == [] {
      assert a + b == a;
    } else {
      var n := |b| - 1;
      assert (a + b)[..|a + b| - 1] == a + b[..n] && (a + b)[|a + b| - 1] == b[n];
      ReplayedAppend(a, b[..n]);
    }
  }

  /** Of a long conversation the last hundred messages are shown. */
  lemma LatestAre(ms: seq<Message>)
    ensures Latest(ms) == ms[|ms| - |Latest(ms)|..] && |Latest(ms)| == if |ms| <= 100 then |ms| else 100
  {
  }

  /** What the model is first shown. */
  function Opening(systemMessages: seq<string>, history: seq<(string, string)>, invocations: seq<Invocation>,
                   notice: Option<string>): seq<Message>
  {
    seq(|systemMessages|, i requires 0 <= i < |systemMessages| => Plain("system", systemMessages[i]))
      + Latest(Conversation(history)) + Replayed(invocations)
      + if notice.Some? then [Plain("system", notice.value)] else []
  }

  lemma OpeningWellFormed(systemMessages: seq<string>, history: seq<(string, string)>, invocations: seq<Invocation>,
                          notice: Option<string>)
    ensures WellFormedTranscript(Opening(systemMessages, history, invocations, notice))
  {
    hide WellFormedTranscript;
    var system := seq(|systemMessages|, i requires 0 <= i < |systemMessages| => Plain("system", systemMessages[i]));
    var last := if notice.Some? then [Plain("system", notice.value)] else [];
    ConversationPlain(history);
    ReplayedWellFormed(invocations);
    PlainWellFormed(system + Latest(Conversation(history)));
    PlainWellFormed(last);
    TranscriptAppend(system + Latest(Conversation(history)), Replayed(invocations));
    TranscriptAppend(system + Latest(Conversation(history)) + Replayed(invocations), last);
  }

  method BuildMessages(systemMessages: seq<string>, history: seq<(string, string)>, invocations: seq<Invocation>,
                       notice: Option<string>) returns (ms: seq<Message>)
    ensures ms == Opening(systemMessages, history, invocations, notice) && WellFormedTranscript(ms)
  {
    hide WellFormedTranscript, Dumps, Wire, Latest;
    var conversation := SelectConversation(history);
    ms := seq(|systemMessages|, i requires 0 <= i < |systemMessages| => Plain("system", systemMessages[i]));
    ms := ms + Latest(conversation);
    var replayed := ReplayInvocations(invocations);
    ms := ms + replayed;
    if notice.Some? {
      ms := ms + [Plain("system", notice.value)];
    }
    OpeningWellFormed(systemMessages, history, invocations, notice);
  }

  method SelectConversation(history: seq<(string, string)>) returns (conversation: seq<Message>)
    ensures conversation == Conversation(history)
  {
    conversation := [];
    for i := 0 to |history|
      invariant conversation == Conversation(history[..i])
    {
      assert history[..i + 1][..i] == history[..i];
      if history[i].0 in ROLES {
        conversation := conversation + [Plain(history[i].0, history[i].1)];
      }
    }
    assert history[..|history|] == history;
  }

  method ReplayInvocations(invocations: seq<Invocation>) returns (ms: seq<Message>)
    ensures ms == Replayed(invocations)
  {
    hide Dumps, Wire;
    ms := [];
    for i := 0 to |invocations|
      invariant ms == Replayed(invocations[..i])
    {
      assert invocations[..i + 1][..i] == invocations[..i];
      var one := invocations[i];
      if one.completed && one.result.Some? {
        ms := ms + [Assistant(None, [Wire(one.call)]), Reply(one.call.id, Dumps(one.result.value))];
      }
    }
    assert invocations[..|invocations|] == invocations;
  }

  // ---------- usage ----------

  function Plus(total: Option<int>, more: Option<int>): Option<int> {
    if more.None? then total else Some((if total.Some? then total.value else 0) + more.value)
  }

  /** The sum of the counts that were reported under one key, or nothing if none ever was. */
  function SumOf(turns: seq<Turn>, key: Usage -> Option<int>): Option<int> {
    if turns == [] then None
    else
      var last := turns[|turns| - 1];
      Plus(SumOf(turns[..|turns| - 1], key), if last.Answer? then key(last.usage) else None)
  }

  function TotalUsage(turns: seq<Turn>): Usage {
    Usage(SumOf(turns, (u: Usage) => u.prompt), SumOf(turns, (u: Usage) => u.completion),
          SumOf(turns, (u: Usage) => u.total))
  }

  predicate Reports(t: Turn, key: Usage -> Option<int>) {
    t.Answer? && key(t.usage).Some?
  }

  function Reported(turns: seq<Turn>, key: Usage -> Option<int>): int {
    if turns == [] then 0
    else (if Reports(turns[0], key) then key(turns[0].usage).value else 0) + Reported(turns[1..], key)
  }

  lemma {:induction false} ReportedAppend(turns: seq<Turn>, turn: Turn, key: Usage -> Option<int>)
    ensures Reported(turns + [turn], key) ==
            Reported(turns, key) + if Reports(turn, key) then key(turn.usage).value else 0
  {
    if turns == [] {
      assert turns + [turn] == [turn] && [turn][1..] == [];
    } else {
      ReportedAppend(turns[1..], turn, key);
      assert (turns + [turn])[1..] == turns[1..] + [turn];
    }
  }

  /** There is a sum exactly when some answer reported a count, and then it is that of all that did. */
  lemma {:induction false} SumExactly(turns: seq<Turn>, key: Usage -> Option<int>)
    ensures SumOf(turns, key).Some? <==> exists i :: 0 <= i < |turns| && Reports(turns[i], key)
    ensures SumOf(turns, key).Some? ==> SumOf(turns, key).value == Reported(turns, key)
    ensures SumOf(turns, key).None? ==> Reported(turns, key) == 0
  {
    if turns != [] {
      var n := |turns| - 1;
      SumExactly(turns[..n], key);
      ReportedAppend(turns[..n], turns[n], key);
      assert turns == turns[..n] + [turns[n]];
      assert forall i :: 0 <= i < n ==> turns[..n][i] == turns[i];
    }
  }

  // ---------- what a run does ----------

  function CallsOf(turns: seq<Turn>): seq<Call> {
    if turns == [] then []
    else CallsOf(turns[..|turns| - 1]) + if turns[|turns| - 1].Answer? then turns[|turns| - 1].calls else []
  }

  /** What the tools reply to the first `n` of these calls, `before` calls having been made already. */
  function Replies(tools: Tools, before: nat, calls: seq<Call>, n: nat): (r: seq<Message>)
    requires n <= |calls|
    ensures |r| == n && Answers(r, Wires(calls))
    ensures forall k :: 0 <= k < n && tools(before + k, calls[k]).Value? ==>
              r[k] == Reply(calls[k].id, Dumps(tools(before + k, calls[k]).value))
  {
    seq(n, k requires 0 <= k < n => ReplyOf(calls[k], tools(before + k, calls[k])))
  }

  function ReplyOf(call: Call, t: ToolTurn): (r: Message)
    ensures r.Reply? && r.callId == call.id && (t.Value? ==> r.result == Dumps(t.value))
  {
    Reply(call.id, if t.Value? then Dumps(t.value) else "")
  }

  /** The transcript after these answers, each followed by its calls and their replies. */
  function Grown(opening: seq<Message>, tools: Tools, turns: seq<Turn>): seq<Message>
    requires AllAnswers(turns)
  {
    if turns == [] then opening
    else
      var n := |turns| - 1;
      var last := turns[n];
      Grown(opening, tools, turns[..n])
        + ([Assistant(last.text, Wires(last.calls))] + Replies(tools, |CallsOf(turns[..n])|, last.calls, |last.calls|))
  }

  predicate AllAnswers(turns: seq<Turn>) {
    forall i :: 0 <= i < |turns| ==> turns[i].Answer?
  }

  predicate IsFinal(t: Turn) {
    t.Answer? && t.calls == [] && t.text.Some? && NotBlank(t.text.value)
  }

  class RunRow {
    var status: Status
    var checkpoint: Option<seq<Message>>

    constructor ()
      ensures status == Queued && checkpoint.None?
    {
      status, checkpoint := Queued, None;
    }
  }

  predicate AllValues(tools: Tools, before: nat, calls: seq<Call>) {
    forall k :: 0 <= k < |calls| ==> tools(before + k, calls[k]).Value?
  }

  /** The `k`-th of the calls is the first that gives no value. */
  predicate FirstFails(tools: Tools, before: nat, calls: seq<Call>, k: nat) {
    && k < |calls| && !tools(before + k, calls[k]).Value?
    && forall j :: 0 <= j < k ==> tools(before + j, calls[j]).Value?
  }

  /** One answer's calls, in order, until one of them fails. */
  method MakeCalls(calls: seq<Call>, tools: Tools, before: nat, opening: seq<Message>)
    returns (messages: seq<Message>, made: nat, failure: Option<ToolTurn>)
    ensures made <= |calls|
    ensures failure.None? <==> AllValues(tools, before, calls)
    ensures failure.None? ==> made == |calls|
    ensures failure.Some? ==> !failure.value.Value?
    ensures failure.Some? ==>
              && 0 < made && FirstFails(tools, before, calls, made - 1)
              && failure.value == tools(before + made - 1, calls[made - 1])
    ensures messages == opening + Replies(tools, before, calls, if failure.None? then made else made - 1)
  {
    hide Dumps;
    messages := opening;
    for k := 0 to |calls|
      invariant messages == opening + Replies(tools, before, calls, k)
      invariant forall j :: 0 <= j < k ==> tools(before + j, calls[j]).Value?
    {
      var executed := tools(before + k, calls[k]);
      if !executed.Value? {
        return messages, k + 1, Some(executed);
      }
      assert Replies(tools, before, calls, k + 1) == Replies(tools, before, calls, k) + [ReplyOf(calls[k], executed)];
      messages := messages + [Reply(calls[k].id, Dumps(executed.value))];
    }
    return messages, |calls|, None;
  }

  /** The answer's calls are made: there are some, it was recorded, there is a gateway, and no limit is in the way. */
  predicate Called(turn: Turn, iteration: nat, before: nat, audited: bool, gateway: bool)
    requires turn.Answer?
  {
    turn.calls != [] && audited && gateway && iteration < 3 && before + |turn.calls| <= 8
  }

  /** Which outcome ends a run on this answer; `failed` is what the last call made gave, if any was made. */
  predicate EndsAs(outcome: Outcome, turn: Turn, iteration: nat, before: nat, audited: bool, persisted: bool,
                   gateway: bool, failed: ToolTurn)
    requires turn.Answer?
  {
    var called := Called(turn, iteration, before, audited, gateway);
    match outcome
    case Done(_, _) => IsFinal(turn) && audited && persisted
    case Parked(_) => called && failed == ToolError("approval_required")
    case Broke(code) =>
      if turn.calls == [] && !IsFinal(turn) then code == "model_request_failed"
      else if !audited then code == "runtime_failed"
      else if turn.calls == [] then code == "audit_persistence_failed" && !persisted
      else if iteration == 3 || before + |turn.calls| > 8 then code == "tool_iteration_limit"
      else if !gateway then code == "tool_execution_failed"
      else if failed.ToolError? then code == failed.code != "approval_required"
      else code == "runtime_failed"
  }

  /** A parked transcript ends in an assistant message whose calls have replies up to the one that waits. */
  predicate ParkedMidway(checkpoint: seq<Message>, shown: seq<Message>) {
    && shown < checkpoint && checkpoint[|shown|].Assistant?
    && Answers(checkpoint[|shown| + 1..], checkpoint[|shown|].calls)
    && |checkpoint[|shown| + 1..]| < |checkpoint[|shown|].calls|
  }

  /** A run that ends on an answer meets the limit, waits for approval, or is done, exactly then. */
  lemma EndsExactlyWhen(outcome: Outcome, turn: Turn, iteration: nat, before: nat, audited: bool, persisted: bool,
                        gateway: bool, failed: ToolTurn)
    requires iteration < MAX_MODEL_ITERATIONS && turn.Answer?
    requires EndsAs(outcome, turn, iteration, before, audited, persisted, gateway, failed)
    ensures var called := Called(turn, iteration, before, audited, gateway);
            && (outcome.Done? <==> IsFinal(turn) && audited && persisted)
            && (outcome.Parked? <==> called && failed == ToolError("approval_required"))
            && (outcome == Broke("tool_iteration_limit") <==>
                || (turn.calls != [] && audited && (iteration == 3 || before + |turn.calls| > 8))
                || (called && failed == ToolError("tool_iteration_limit")))
            && (outcome == Broke("tool_execution_failed") <==>
                || (turn.calls != [] && audited && iteration != 3 && before + |turn.calls| <= 8 && !gateway)
                || (called && failed == ToolError("tool_execution_failed")))
  {
    hide NotBlank;
    CodesDiffer();
    var called := Called(turn, iteration, before, audited, gateway);
    match outcome
    case Done(_, _) =>
    case Parked(_) =>
    case Broke(code) =>
      assert called ==> (failed.ToolError? && code == failed.code) || code == "runtime_failed";
      if outcome == Broke("tool_iteration_limit") && called {
        assert failed.ToolError? && failed.code == "tool_iteration_limit";
      }
      if outcome == Broke("tool_execution_failed") && called {
        assert failed.ToolError? && failed.code == "tool_execution_failed";
      }
  }

  lemma CodesDiffer()
    ensures "tool_iteration_limit" !in ["tool_execution_failed", "approval_required", "model_request_failed",
                                        "runtime_failed", "audit_persistence_failed"]
    ensures "tool_execution_failed" !in ["approval_required", "model_request_failed", "runtime_failed",
                                         "audit_persistence_failed"]
  {
    assert |"tool_iteration_limit"| == 20 && |"tool_execution_failed"| == 21 && |"approval_required"| == 17;
    assert |"model_request_failed"| == 20 && "model_request_failed"[0] != "tool_iteration_limit"[0];
    assert |"runtime_failed"| == 14 && |"audit_persistence_failed"| == 24;
  }

  /** What the answer of one iteration leads to. */
  datatype Verdict = GoOn | End(outcome: Outcome)

  /** One answer, once it was recorded: it ends the run, or its calls are made and the loop goes on. */
  method TakeTurn(turn: Turn, iteration: nat, shown: seq<Message>, tools: Tools, before: nat, audited: bool,
                  persisted: bool, gateway: bool, usage: Usage)
    returns (verdict: Verdict, messages: seq<Message>, made: nat)
    requires iteration < MAX_MODEL_ITERATIONS && before <= MAX_TOOL_CALLS && turn.Answer?
    ensures made <= |turn.calls|
    ensures verdict.GoOn? <==>
            Called(turn, iteration, before, audited, gateway) && AllValues(tools, before, turn.calls)
    ensures made == 0 <==> !Called(turn, iteration, before, audited, gateway)
    ensures verdict.GoOn? ==>
              && made == |turn.calls|
              && messages == shown
                             + ([Assistant(turn.text, Wires(turn.calls))] + Replies(tools, before, turn.calls, made))
    ensures verdict.End? && made > 0 ==> FirstFails(tools, before, turn.calls, made - 1)
    ensures verdict.End? ==>
              EndsAs(verdict.outcome, turn, iteration, before, audited, persisted, gateway,
                     if made > 0 then tools(before + made - 1, turn.calls[made - 1]) else ToolCrashed)
    ensures verdict.End? && verdict.outcome.Done? <==> IsFinal(turn) && audited && persisted
    ensures verdict.End? && verdict.outcome.Done? ==> verdict.outcome == Done(turn.text.value, usage)
    ensures verdict.End? && verdict.outcome.Parked? ==>
              && 0 < made && verdict.outcome.at == iteration && ParkedMidway(messages, shown)
              && messages ==
                 shown + ([Assistant(turn.text, Wires(turn.calls))] + Replies(tools, before, turn.calls, made - 1))
  {
    hide Dumps, NotBlank, Wires, Replies, AllValues, FirstFails, ParkedMidway;
    messages, made := shown, 0;
    var calls := turn.calls;
    if calls == [] && (turn.text.None? || !NotBlank(turn.text.value)) {
      return End(Broke("model_request_failed")), messages, made;
    }
    if !audited {
      return End(Broke("runtime_failed")), messages, made;
    }
    if calls == [] {
      if !persisted {
        return End(Broke("audit_persistence_failed")), messages, made;
      }
      return End(Done(turn.text.value, usage)), messages, made;
    }
    if iteration == MAX_MODEL_ITERATIONS - 1 || before + |calls| > MAX_TOOL_CALLS {
      return End(Broke("tool_iteration_limit")), messages, made;
    }
    messages := messages + [Assistant(turn.text, Wires(calls))];
    if !gateway {
      return End(Broke("tool_execution_failed")), messages, made;
    }
    var failure;
    messages, made, failure := MakeCalls(calls, tools, before, messages);
    Exchanged(shown, turn, tools, before, if failure.None? then made else made - 1);
    if failure.None? {
      return GoOn, messages, made;
    }
    if failure.value == ToolError("approval_required") {
      return End(Parked(iteration)), messages, made;
    }
    return End(Broke(if failure.value.ToolError? then failure.value.code else "runtime_failed")), messages, made;
  }

  lemma Exchanged(shown: seq<Message>, turn: Turn, tools: Tools, before: nat, n: nat)
    requires turn.Answer? && n <= |turn.calls|
    ensures |Replies(tools, before, turn.calls, n)| == n
    ensures var replies := Replies(tools, before, turn.calls, n);
            var exchange := [Assistant(turn.text, Wires(turn.calls))] + replies;
            && shown + [Assistant(turn.text, Wires(turn.calls))] + replies == shown + exchange
            && (n < |turn.calls| ==> ParkedMidway(shown + exchange, shown))
  {
    hide Dumps, Wires, Replies;
    Midway(shown, turn.text, Wires(turn.calls), Replies(tools, before, turn.calls, n));
  }

  lemma Midway(shown: seq<Message>, text: Option<string>, calls: seq<WireCall>, replies: seq<Message>)
    ensures shown + [Assistant(text, calls)] + replies == shown + ([Assistant(text, calls)] + replies)
    ensures |replies| < |calls| && Answers(replies, calls) ==>
              ParkedMidway(shown + ([Assistant(text, calls)] + replies), shown)
  {
    var messages := shown + ([Assistant(text, calls)] + replies);
    assert messages == shown + [Assistant(text, calls)] + replies;
    assert messages[|shown|] == Assistant(text, calls) && messages[|shown| + 1..] == replies;
  }

  /** The usage with one more answer's counts added in. */
  function UsagePlus(usage: Usage, more: Usage): Usage {
    Usage(Plus(usage.prompt, more.prompt), Plus(usage.completion, more.completion), Plus(usage.total, more.total))
  }

  lemma TotalOneMore(turns: seq<Turn>, turn: Turn)
    requires turn.Answer?
    ensures TotalUsage(turns + [turn]) == UsagePlus(TotalUsage(turns), turn.usage)
    ensures CallsOf(turns + [turn]) == CallsOf(turns) + turn.calls
  {
    assert (turns + [turn])[..|turns|] == turns;
  }

  lemma GrownOneMore(opening: seq<Message>, tools: Tools, turns: seq<Turn>, turn: Turn)
    requires AllAnswers(turns) && turn.Answer? && WellFormedTranscript(Grown(opening, tools, turns))
    ensures Grown(opening, tools, turns + [turn]) ==
            Grown(opening, tools, turns)
              + ([Assistant(turn.text, Wires(turn.calls))]
                 + Replies(tools, |CallsOf(turns)|, turn.calls, |turn.calls|))
    ensures WellFormedTranscript(Grown(opening, tools, turns + [turn]))
  {
    hide Wires, Replies, CallsOf, WellFormedTranscript;
    assert (turns + [turn])[..|turns|] == turns;
    var replies := Replies(tools, |CallsOf(turns)|, turn.calls, |turn.calls|);
    ExchangeWellFormed(turn.text, Wires(turn.calls), replies);
    TranscriptAppend(Grown(opening, tools, turns), [Assistant(turn.text, Wires(turn.calls))] + replies);
  }

  /** Each transcript the model was shown is the opening grown by the answers before, and well formed. */
  predicate Shown(opening: seq<Message>, model: Model, tools: Tools, seen: seq<seq<Message>>, turns: seq<Turn>) {
    && |seen| == |turns|
    && forall i :: 0 <= i < |seen| ==>
         && AllAnswers(turns[..i]) && turns[i] == model(i, seen[i])
         && seen[i] == Grown(opening, tools, turns[..i]) && WellFormedTranscript(seen[i])
  }

  lemma ShownOneMore(opening: seq<Message>, model: Model, tools: Tools, seen: seq<seq<Message>>, turns: seq<Turn>)
    requires Shown(opening, model, tools, seen, turns) && AllAnswers(turns)
    requires WellFormedTranscript(Grown(opening, tools, turns))
    ensures var shown := Grown(opening, tools, turns);
            |seen| == |turns| && Shown(opening, model, tools, seen + [shown], turns + [model(|turns|, shown)])
  {
    hide Grown, WellFormedTranscript;
    var shown := Grown(opening, tools, turns);
    var more := turns + [model(|turns|, shown)];
    assert forall i :: 0 <= i <= |turns| ==> more[..i] == turns[..i];
    assert turns[..|turns|] == turns;
  }

  /** The first `n` of the answers were recorded, asked for calls, and there was a gateway to make them. */
  predicate WentOn(turns: seq<Turn>, n: int, audited: nat -> bool, gateway: bool) {
    n <= |turns| && forall i :: 0 <= i < n ==> turns[i].Answer? && turns[i].calls != [] && audited(i) && gateway
  }

  /** The first `n` of the calls gave values. */
  predicate Served(tools: Tools, executed: seq<Call>, n: int) {
    n <= |executed| && forall i :: 0 <= i < n ==> tools(i, executed[i]).Value?
  }

  /**
   One execution.  `audited` says whether recording the i-th answer succeeds, `persisted` whether the final answer can
   be stored, `gateway` whether there is a tool gateway.  `turns` are the model's answers and `executed` the calls that
   reached a tool.
   */
  method Execute(run: RunRow, opening: seq<Message>, model: Model, tools: Tools, audited: nat -> bool,
                 persisted: bool, gateway: bool)
    returns (outcome: Outcome, seen: seq<seq<Message>>, turns: seq<Turn>, executed: seq<Call>)
    requires WellFormedTranscript(opening)
    modifies run
    ensures 1 <= |turns| <= 4 && |executed| <= 8
    ensures Shown(opening, model, tools, seen, turns)
    ensures CallsOf(turns[..|turns| - 1]) <= executed <= CallsOf(turns)
    // Every answer but the last was recorded and asked for calls, and all of them gave values.
    ensures WentOn(turns, |turns| - 1, audited, gateway)
    ensures Served(tools, executed, |executed| - 1)
    ensures var n := |turns| - 1;
            var before, last := |CallsOf(turns[..n])|, turns[n];
            var failed := if |executed| > before then tools(|executed| - 1, executed[|executed| - 1]) else ToolCrashed;
            && (last.Answer? ==>
                  && (|executed| > before <==> Called(last, n, before, audited(n), gateway))
                  && (|executed| > before ==> !failed.Value?)
                  && EndsAs(outcome, last, n, before, audited(n), persisted, gateway, failed))
            && (!last.Answer? ==>
                  outcome == Broke(if last.ModelFailed? then "model_request_failed" else "runtime_failed"))
    ensures outcome.Done? <==> IsFinal(turns[|turns| - 1]) && audited(|turns| - 1) && persisted
    ensures outcome.Done? ==>
              && Some(outcome.content) == turns[|turns| - 1].text && outcome.usage == TotalUsage(turns)
              && executed == CallsOf(turns)
    ensures outcome.Parked? ==>
              && outcome.at == |turns| - 1 && run.checkpoint.Some?
              && ParkedMidway(run.checkpoint.value, seen[|seen| - 1])
    ensures run.status == StatusAfter(outcome)
  {
    hide WellFormedTranscript, Grown, CallsOf, TotalUsage, IsFinal, ParkedMidway, UsagePlus, Shown, AllAnswers, Wires,
         Replies, EndsAs, FirstFails, AllValues, WentOn, Served, Called;
    run.status := Running;
    var messages := opening;
    var usage := Usage(None, None, None);
    seen, turns, executed := [], [], [];
    NoTurns(opening, tools);
    for iteration := 0 to MAX_MODEL_ITERATIONS
      invariant |turns| == iteration < MAX_MODEL_ITERATIONS && AllAnswers(turns)
      invariant Shown(opening, model, tools, seen, turns)
      invariant messages == Grown(opening, tools, turns) && WellFormedTranscript(messages)
      invariant executed == CallsOf(turns) && |executed| <= MAX_TOOL_CALLS
      invariant WentOn(turns, |turns|, audited, gateway) && Served(tools, executed, |executed|)
      invariant usage == TotalUsage(turns)
    {
      ghost var earlier := turns;
      ShownOneMore(opening, model, tools, seen, turns);
      var turn := model(iteration, messages);
      seen := seen + [messages];
      turns := turns + [turn];
      LastTurn(earlier, turn);
      if !turn.Answer? {
        NoAnswer(earlier, turn);
        WentOnMore(earlier, turn, audited, gateway);
        ServedMore(tools, executed, [], 0);
        run.status := Failed;
        return Broke(if turn.ModelFailed? then "model_request_failed" else "runtime_failed"), seen, turns, executed;
      }
      TotalOneMore(earlier, turn);
      usage := UsagePlus(usage, turn.usage);
      var verdict, grown, made :=
        TakeTurn(turn, iteration, messages, tools, |executed|, audited(iteration), persisted, gateway, usage);
      Prefixes(executed, turn.calls, made);
      ServedMore(tools, executed, turn.calls, made);
      WentOnMore(earlier, turn, audited, gateway);
      CalledWithin(turn, iteration, |executed|, audited(iteration), gateway);
      executed := executed + turn.calls[..made];
      if verdict.End? {
        outcome := verdict.outcome;
        FinalHasNoCalls(turn);
        run.status := StatusAfter(outcome);
        if outcome.Parked? {
          run.checkpoint := Some(grown);
        }
        return;
      }
      GrownOneMore(opening, tools, earlier, turn);
      messages := grown;
    }
    assert false;
  }

  lemma CalledWithin(turn: Turn, iteration: nat, before: nat, audited: bool, gateway: bool)
    requires turn.Answer?
    ensures Called(turn, iteration, before, audited, gateway) ==>
              turn.calls != [] && audited && gateway && iteration != 3 && before + |turn.calls| <= 8
  {
  }

  lemma LastTurn(turns: seq<Turn>, turn: Turn)
    ensures var all := turns + [turn];
            && all[..|all| - 1] == turns && all[|all| - 1] == turn
            && (AllAnswers(all) <==> AllAnswers(turns) && turn.Answer?)
  {
    assert (turns + [turn])[..|turns|] == turns;
    assert forall i :: 0 <= i < |turns| ==> (turns + [turn])[i] == turns[i];
  }

  lemma Prefixes(made: seq<Call>, calls: seq<Call>, n: nat)
    requires n <= |calls|
    ensures made <= made + calls[..n] <= made + calls
    ensures n == |calls| ==> calls[..n] == calls
  {
  }

  /** With these calls made, all gave values, or all but the last did. */
  lemma ServedMore(tools: Tools, executed: seq<Call>, calls: seq<Call>, made: nat)
    requires made <= |calls| && Served(tools, executed, |executed|)
    ensures var all := executed + calls[..made];
            && (made == 0 ==> all == executed && Served(tools, all, |all| - 1))
            && (made == |calls| && AllValues(tools, |executed|, calls) ==> Served(tools, all, |all|))
            && (0 < made && FirstFails(tools, |executed|, calls, made - 1) ==>
                  && Served(tools, all, |all| - 1)
                  && all[|all| - 1] == calls[made - 1] && !tools(|all| - 1, all[|all| - 1]).Value?)
  {
    var all := executed + calls[..made];
    assert made == 0 ==> all == executed;
    forall i | |executed| <= i < |all|
      ensures all[i] == calls[i - |executed|]
      ensures tools(i, all[i]) == tools(|executed| + (i - |executed|), calls[i - |executed|])
    {
    }
  }

  lemma WentOnMore(turns: seq<Turn>, turn: Turn, audited: nat -> bool, gateway: bool)
    requires WentOn(turns, |turns|, audited, gateway)
    ensures WentOn(turns + [turn], |turns|, audited, gateway)
    ensures turn.Answer? && turn.calls != [] && audited(|turns|) && gateway ==>
              WentOn(turns + [turn], |turns| + 1, audited, gateway)
  {
  }

  lemma NoTurns(opening: seq<Message>, tools: Tools)
    ensures AllAnswers([]) && Grown(opening, tools, []) == opening
    ensures CallsOf([]) == [] && TotalUsage([]) == Usage(None, None, None)
    ensures forall model :: Shown(opening, model, tools, [], [])
    ensures forall audited, gateway :: WentOn([], 0, audited, gateway)
    ensures Served(tools, [], 0)
  {
  }

  lemma NoAnswer(turns: seq<Turn>, turn: Turn)
    requires !turn.Answer?
    ensures CallsOf(turns + [turn]) == CallsOf(turns) && !IsFinal(turn)
  {
    assert (turns + [turn])[..|turns|] == turns;
  }

  lemma FinalHasNoCalls(turn: Turn)
    ensures IsFinal(turn) ==> turn.Answer? && turn.calls == [] && turn.text.Some?
  {
  }

  function StatusAfter(outcome: Outcome): Status {
    match outcome
    case Done(_, _) => Completed
    case Broke(_) => Failed
    case Parked(_) => WaitingApproval
  }
}
