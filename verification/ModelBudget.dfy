/**
 The budget that the threads of one execution share (backend/app/runtime/gateway_model.py, `GatewayModelBudget`) and
 the idempotency keys built from what it hands out.

 Every operation holds the lock from beginning to end, so a run of any threads is a sequence of whole operations.
 */
module ModelBudget {
  import opened Outcomes
  import opened Json

  datatype Limits = Limits(iterations: int, toolCalls: int, subagents: int)

  datatype Budget = Budget(next: nat, tools: nat, subagents: nat)

  datatype BudgetError = IterationLimit | ToolCallLimit | SubagentLimit

  datatype Step =
    | Reserve
    | Consume(toolCalls: nat, subagentCalls: nat)

  function Reserved(l: Limits, b: Budget): Result<Budget, BudgetError> {
    if b.next >= l.iterations then Err(IterationLimit) else Ok(b.(next := b.next + 1))
  }

  function Consumed(l: Limits, b: Budget, toolCalls: nat, subagentCalls: nat): Result<Budget, BudgetError> {
    if b.tools + toolCalls > l.toolCalls then Err(ToolCallLimit)
    else if b.subagents + subagentCalls > l.subagents then Err(SubagentLimit)
    else Ok(b.(tools := b.tools + toolCalls, subagents := b.subagents + subagentCalls))
  }

  /** A number is handed out exactly while fewer than the limit were. */
  lemma ReservesExactlyWhen(l: Limits, b: Budget)
    ensures Reserved(l, b) == if b.next < l.iterations then Ok(Budget(b.next + 1, b.tools, b.subagents))
                              else Err(IterationLimit)
  {
  }

  /** A response is consumed exactly when both sums stay within their limits; the tool limit is looked at first. */
  lemma ConsumesExactlyWhen(l: Limits, b: Budget, toolCalls: nat, subagentCalls: nat)
    ensures var r := Consumed(l, b, toolCalls, subagentCalls);
            && (r.Ok? <==> b.tools + toolCalls <= l.toolCalls && b.subagents + subagentCalls <= l.subagents)
            && (r.Ok? ==> r.value == Budget(b.next, b.tools + toolCalls, b.subagents + subagentCalls))
            && (r == Err(ToolCallLimit) <==> b.tools + toolCalls > l.toolCalls)
            && (r.Err? ==> r.error == ToolCallLimit || r.error == SubagentLimit)
  {
  }

  class SharedBudget {
    const limits: Limits
    var next: nat
    var tools: nat
    var subagents: nat

    constructor (limits: Limits)
      ensures this.limits == limits && Value() == Budget(0, 0, 0)
    {
      this.limits := limits;
      next, tools, subagents := 0, 0, 0;
    }

    ghost function Value(): Budget
      reads this
    {
      Budget(next, tools, subagents)
    }

    method ReserveInvocation() returns (r: Result<nat, BudgetError>)
      modifies this`next
      ensures match Reserved(limits, old(Value()))
              case Ok(b) => r == Ok(old(next)) && Value() == b
              case Err(e) => r == Err(e) && Value() == old(Value())
    {
      if next >= limits.iterations {
        return Err(IterationLimit);
      }
      var sequence := next;
      next := next + 1;
      return Ok(sequence);
    }

    method ConsumeResponse(toolCalls: nat, subagentCalls: nat) returns (r: Result<(), BudgetError>)
      modifies this
      ensures match Consumed(limits, old(Value()), toolCalls, subagentCalls)
              case Ok(b) => r.Ok? && Value() == b
              case Err(e) => r == Err(e) && Value() == old(Value())
    {
      if tools + toolCalls > limits.toolCalls {
        return Err(ToolCallLimit);
      }
      if subagents + subagentCalls > limits.subagents {
        return Err(SubagentLimit);
      }
      tools := tools + toolCalls;
      subagents := subagents + subagentCalls;
      return Ok(());
    }
  }

  // ---------- any number of threads ----------

  function Next(l: Limits, b: Budget, step: Step): Budget {
    var outcome := match step
      case Reserve => Reserved(l, b)
      case Consume(toolCalls, subagentCalls) => Consumed(l, b, toolCalls, subagentCalls);
    if outcome.Ok? then outcome.value else b
  }

  /** A response counts in full or not at all. */
  lemma NextIs(l: Limits, b: Budget, step: Step)
    ensures step.Consume? ==>
              Next(l, b, step)
              == if b.tools + step.toolCalls <= l.toolCalls && b.subagents + step.subagentCalls <= l.subagents
                 then Budget(b.next, b.tools + step.toolCalls, b.subagents + step.subagentCalls) else b
    ensures step.Reserve? ==> Next(l, b, step) == if b.next < l.iterations then b.(next := b.next + 1) else b
  {
  }

  function Run(l: Limits, steps: seq<Step>): Budget {
    if steps == [] then Budget(0, 0, 0) else Next(l, Run(l, steps[..|steps| - 1]), steps[|steps| - 1])
  }

  /** The sequence numbers handed out, in order. */
  function HandedOut(l: Limits, steps: seq<Step>): seq<nat> {
    if steps == [] then []
    else
      var n := |steps| - 1;
      var b := Run(l, steps[..n]);
      HandedOut(l, steps[..n]) + if steps[n].Reserve? && Reserved(l, b).Ok? then [b.next] else []
  }

  function Min(a: int, b: int): int {
    if a <= b then a else b
  }

  function Requests(steps: seq<Step>): nat {
    if steps == [] then 0 else Requests(steps[..|steps| - 1]) + if steps[|steps| - 1].Reserve? then 1 else 0
  }

  /**
   However threads interleave, exactly the numbers 0, 1, ... are handed out, each once, as many as were asked for but
   no more than the limit; and the totals of accepted responses stay within theirs.
   */
  lemma {:induction false} BudgetHolds(l: Limits, steps: seq<Step>)
    requires l.iterations >= 0 && l.toolCalls >= 0 && l.subagents >= 0
    ensures var out := HandedOut(l, steps);
            var b := Run(l, steps);
            && |out| == b.next == Min(Requests(steps), l.iterations)
            && (forall i :: 0 <= i < |out| ==> out[i] == i)
            && b.tools <= l.toolCalls && b.subagents <= l.subagents
  {
    if steps != [] {
      BudgetHolds(l, steps[..|steps| - 1]);
    }
  }

  // ---------- idempotency keys ----------

  function KeyOf(member: Option<string>, sequence: nat): string {
    if member.Some? then "model-" + member.value + "-" + IntText(sequence) else "model-" + IntText(sequence)
  }

  lemma DashInside(a: string, d: string, b: string, e: string)
    requires a + "-" + d == b + "-" + e && |a| < |b|
    ensures '-' in d
  {
    assert (a + "-" + d)[|b|] == '-';
    assert d[|b| - |a| - 1] == '-';
  }

  lemma LastDash(a: string, d: string, b: string, e: string)
    requires a + "-" + d == b + "-" + e && '-' !in d && '-' !in e
    ensures a == b && d == e
  {
    if |a| < |b| {
      DashInside(a, d, b, e);
    } else if |b| < |a| {
      DashInside(b, e, a, d);
    } else {
      var t := a + "-" + d;
      assert t[..|a|] == a && t[..|b|] == b;
      assert t[|a| + 1..] == d && t[|b| + 1..] == e;
    }
  }

  const KIND := "model"

  /** What comes before the last dash of a key. */
  function Stem(member: Option<string>): string {
    if member.Some? then KIND + "-" + member.value else KIND
  }

  lemma KeyParts(member: Option<string>, sequence: nat)
    ensures KeyOf(member, sequence) == Stem(member) + "-" + Decimal(sequence) && '-' !in Decimal(sequence)
  {
    assert "model-" == KIND + "-";
  }

  /** Keys of different members or different sequence numbers are different. */
  lemma KeysDistinct(m: Option<string>, i: nat, n: Option<string>, j: nat)
    ensures KeyOf(m, i) == KeyOf(n, j) <==> m == n && i == j
  {
    if KeyOf(m, i) == KeyOf(n, j) {
      KeyParts(m, i);
      KeyParts(n, j);
      LastDash(Stem(m), Decimal(i), Stem(n), Decimal(j));
      ParseDecimalText(i);
      ParseDecimalText(j);
      if m.Some? && n.Some? {
        assert Stem(m)[|KIND| + 1..] == m.value && Stem(n)[|KIND| + 1..] == n.value;
      }
    }
  }
}
