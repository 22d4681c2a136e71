/** Where a refund's parameters come from, with the production parameters and usability check. */
module Provenance {
  import opened Values
  import opened Records
  import opened Ordering
  import opened Dag
  import opened Executor
  import opened Critic
  import opened Pipeline
  import opened Safety
  import opened Accounting

  /** The production executor in any world. */
  function Production(useLlm: bool, tools: (seq<Record>, string, Dict) -> ToolResult, parse: string -> Option<real>): Env {
    Env(useLlm, (tool: string, context: Dict) => PrepareParams(parse, tool, context), r => IsUsable(r), tools, parse)
  }

  ghost predicate IsProduction(env: Env) {
    && (forall tool, context :: env.prepare(tool, context) == PrepareParams(env.parseFloat, tool, context))
    && (forall r :: env.usable(r) == IsUsable(r))
  }

  lemma ProductionIsProduction(useLlm: bool, tools: (seq<Record>, string, Dict) -> ToolResult, parse: string -> Option<real>)
    ensures IsProduction(Production(useLlm, tools, parse))
  {
  }

  // ---- the amount is always a number ----

  predicate Numeric(context: Dict) {
    "amount" in context ==> context["amount"].Num?
  }

  lemma UpdateIsNumeric(parse: string -> Option<real>, r: Record)
    ensures Numeric(UpdateContext(parse, r))
  {
  }

  lemma {:induction false} ExecToolsNumeric(env: Env, iteration: nat, tools: seq<string>, t: Trace)
    requires Numeric(t.context)
    ensures Numeric(ExecTools(env, iteration, tools, t).context)
  {
    if tools != [] {
      UpdateIsNumeric(env.parseFloat, Dispatch(env, iteration, tools[0], t));
      ExecToolsNumeric(env, iteration, tools[1..], ExecTool(env, iteration, tools[0], t));
    }
  }

  lemma StepNumeric(env: Env, c: Config, a: Answers)
    requires Numeric(c.s.context)
    ensures Numeric(Step(env, c, a).s.context)
  {
    hide Judge, Plan, MemoryWrites, Remaining, UpdateContext;
    if c.node == Executing { ExecToolsNumeric(env, c.s.iteration, Flatten(c.s.dag), Trace(c.s.context, c.s.calls)); }
  }

  /** For any LLM, memory and tools, the amount in a reachable context is a number, so converting it cannot fail. */
  lemma {:induction false} AmountIsNumeric(env: Env, c: Config, answers: seq<Answers>)
    requires Numeric(c.s.context)
    ensures var amount := Get(RunFrom(env, c, answers).s.context, "amount");
            amount == Null || (amount.Num? && ToFloat(env.parseFloat, amount) == Some(amount.number))
    decreases |answers|
  {
    if answers != [] {
      StepNumeric(env, c, answers[0]);
      AmountIsNumeric(env, Step(env, c, answers[0]), answers[1..]);
    }
  }

  /** Intake's contexts meet the hypothesis. */
  lemma IntakeIsNumeric(ticketId: string, customerId: string, hasMessage: bool, intent: string,
                        order: Option<string>, email: Option<string>, amount: Option<real>)
    ensures Numeric(Intake(ticketId, customerId, hasMessage, intent, order, email, amount).s.context)
  {
  }

  // ---- refunds take their parameters from the usable lookup ----

  /** The context holds what the lookup `r` returned. */
  predicate Carried(parse: string -> Option<real>, r: Record, context: Dict) {
    var data := OrEmpty(r.data);
    && "order_id" in context && context["order_id"] == Get(data, "order_id")
    && (Get(data, "total_amount") != Null && ToFloat(parse, Get(data, "total_amount")).Some? ==>
          "amount" in context && context["amount"] == Num(ToFloat(parse, Get(data, "total_amount")).value))
  }

  /** The refund parameters are those of the lookup `r`: its order, and its total whenever that is numeric. */
  predicate Uses(parse: string -> Option<real>, r: Record, params: Dict) {
    var data := OrEmpty(r.data);
    && Get(params, "order_id") == Get(data, "order_id") && Truthy(Get(params, "order_id"))
    && (Get(data, "total_amount") != Null && ToFloat(parse, Get(data, "total_amount")).Some? ==>
          Get(params, "amount") == Num(ToFloat(parse, Get(data, "total_amount")).value))
  }

  lemma OnlyLookupsTouchOrder(parse: string -> Option<real>, q: Record)
    requires q.tool != "order_lookup"
    ensures "order_id" !in UpdateContext(parse, q) && "amount" !in UpdateContext(parse, q)
  {
  }

  lemma CarriedIsKept(parse: string -> Option<real>, r: Record, context: Dict, q: Record)
    requires Carried(parse, r, context) && q.tool != "order_lookup"
    ensures Carried(parse, r, context + UpdateContext(parse, q))
  {
    hide UpdateContext;
    OnlyLookupsTouchOrder(parse, q);
  }

  lemma UsableLookupIsCarried(parse: string -> Option<real>, r: Record, context: Dict)
    requires r.tool == "order_lookup" && IsUsable(r)
    ensures Carried(parse, r, context + UpdateContext(parse, r))
  {
    assert OrEmpty(r.data) != map[] by { assert "order_id" in OrEmpty(r.data); }
  }

  lemma CarriedIsUsed(parse: string -> Option<real>, r: Record, context: Dict)
    requires Carried(parse, r, context) && Truthy(Get(OrEmpty(r.data), "order_id"))
    ensures Uses(parse, r, PrepareParams(parse, "refund", context))
  {
  }

  predicate Known(env: Env, t: Trace) {
    forall r :: r in t.calls && r.tool == "order_lookup" && env.usable(r) ==> Carried(env.parseFloat, r, t.context)
  }

  predicate Sourced(env: Env, calls: seq<Record>) {
    forall i, j :: 0 <= j < i < |calls| && calls[i].tool == "refund" && calls[j].tool == "order_lookup" && env.usable(calls[j]) ==>
      Uses(env.parseFloat, calls[j], calls[i].params)
  }

  lemma AppendIsKnown(env: Env, t: Trace, r: Record)
    requires IsProduction(env) && Known(env, t)
    requires r.tool == "order_lookup" ==> "order_lookup" !in UsableTools(env, t.calls)
    ensures Known(env, Append(env, t, r))
  {
    hide UpdateContext, Carried, IsUsable;
    forall q | q in t.calls + [r] && q.tool == "order_lookup" && env.usable(q)
      ensures Carried(env.parseFloat, q, t.context + UpdateContext(env.parseFloat, r))
    {
      if r.tool == "order_lookup" {
        assert q in t.calls ==> q.tool in UsableTools(env, t.calls);
        UsableLookupIsCarried(env.parseFloat, r, t.context);
      } else {
        CarriedIsKept(env.parseFloat, q, t.context, r);
      }
    }
  }

  lemma UsableLookupNamesOrder(r: Record)
    requires r.tool == "order_lookup" && IsUsable(r)
    ensures Truthy(Get(OrEmpty(r.data), "order_id"))
  {
  }

  lemma AppendIsSourced(env: Env, iteration: nat, tool: string, t: Trace)
    requires IsProduction(env) && Known(env, t) && Sourced(env, t.calls)
    ensures Sourced(env, t.calls + [Dispatch(env, iteration, tool, t)])
  {
    hide Carried, Uses, IsUsable, PrepareParams;
    var r := Dispatch(env, iteration, tool, t);
    var all := t.calls + [r];
    forall i, j | 0 <= j < i < |all| && all[i].tool == "refund" && all[j].tool == "order_lookup" && env.usable(all[j])
      ensures Uses(env.parseFloat, all[j], all[i].params)
    {
      if i == |t.calls| {
        assert all[j] in t.calls;
        UsableLookupNamesOrder(all[j]);
        CarriedIsUsed(env.parseFloat, all[j], t.context);
      }
    }
  }

  lemma {:induction false} ExecToolsSourced(env: Env, iteration: nat, tools: seq<string>, t: Trace)
    requires IsProduction(env) && Known(env, t) && Sourced(env, t.calls)
    requires NoDup(tools) && ("order_lookup" in tools ==> "order_lookup" !in UsableTools(env, t.calls))
    ensures var t' := ExecTools(env, iteration, tools, t); Known(env, t') && Sourced(env, t'.calls)
  {
    hide Known, Sourced, Dispatch;
    if tools != [] {
      var t1 := ExecTool(env, iteration, tools[0], t);
      if t1 != t {
        var r := Dispatch(env, iteration, tools[0], t);
        assert r.tool == tools[0] by { DispatchNamesTool(env, iteration, tools[0], t); }
        AppendIsKnown(env, t, r);
        AppendIsSourced(env, iteration, tools[0], t);
        UsableToolsAppend(env, t.calls, r);
      }
      assert NoDup(tools[1..]);
      if "order_lookup" in tools[1..] { assert tools[0] != "order_lookup"; }
      ExecToolsSourced(env, iteration, tools[1..], t1);
    }
  }

  lemma DispatchNamesTool(env: Env, iteration: nat, tool: string, t: Trace)
    ensures Dispatch(env, iteration, tool, t).tool == tool
  {
  }

  predicate Traced(env: Env, s: State) {
    Known(env, Trace(s.context, s.calls)) && Sourced(env, s.calls)
  }

  lemma ExecutorKeepsTraced(env: Env, s: State)
    requires IsProduction(env) && Traced(env, s)
    requires ExactBetween(env, s.expected, s.pending, s.calls) && s.dag == FromPendingTools(Elements(s.pending))
    ensures Traced(env, ExecutorNode(env, s))
  {
    hide Known, Sourced, ExecTools, FromPendingTools;
    var order := Flatten(s.dag);
    FallbackCoversOnce(Elements(s.pending));
    if "order_lookup" in order { assert "order_lookup" in Elements(order); }
    ExecToolsSourced(env, s.iteration, order, Trace(s.context, s.calls));
  }

  lemma StepKeepsTraced(env: Env, c: Config, a: Answers)
    requires IsProduction(env) && Traced(env, c.s) && Exact(env, c)
    ensures Traced(env, Step(env, c, a).s)
  {
    hide Judge, Plan, MemoryWrites, Remaining, Known, Sourced, ExecTools;
    if c.node == Executing { ExecutorKeepsTraced(env, c.s); }
  }

  lemma {:induction false} RunIsTraced(env: Env, c: Config, answers: seq<Answers>)
    requires IsProduction(env) && !env.useLlm && Safe(env, c) && Exact(env, c) && Traced(env, c.s)
    ensures Traced(env, RunFrom(env, c, answers).s)
    decreases |answers|
  {
    hide Step, Known, Sourced, Safe, Exact;
    if answers != [] {
      StepKeepsSafe(env, c, answers[0]);
      StepKeepsExact(env, c, answers[0]);
      StepKeepsTraced(env, c, answers[0]);
      RunIsTraced(env, Step(env, c, answers[0]), answers[1..]);
    }
  }

  lemma UsableLookupEchoes(r: Record)
    requires r.tool == "order_lookup" && IsUsable(r) && Truthy(Get(r.params, "order_id"))
    ensures Get(OrEmpty(r.data), "order_id") == Get(r.params, "order_id")
  {
  }

  /** With the LLM off, for any tools and any memory: although unusable results update the context too, a refund is
      called only after a usable order_lookup, that lookup is the only usable one, and the refund names its order
      and, whenever its total is numeric, its total. So a refund goes to the order that lookup asked for. */
  lemma RefundsUseTheLookup(env: Env, ticketId: string, hasMessage: bool, intent: string, context: Dict,
                            expected: seq<string>, answers: seq<Answers>, i: nat) returns (j: nat)
    requires IsProduction(env) && !env.useLlm
    requires i < |RunFrom(env, Start(ticketId, hasMessage, intent, context, expected), answers).s.calls|
    requires RunFrom(env, Start(ticketId, hasMessage, intent, context, expected), answers).s.calls[i].tool == "refund"
    ensures var calls := RunFrom(env, Start(ticketId, hasMessage, intent, context, expected), answers).s.calls;
            && j < i && calls[j].tool == "order_lookup" && IsUsable(calls[j])
            && (forall k :: 0 <= k < |calls| && calls[k].tool == "order_lookup" && IsUsable(calls[k]) ==> k == j)
            && Uses(env.parseFloat, calls[j], calls[i].params)
            && (var asked := Get(calls[j].params, "order_id"); Truthy(asked) ==> Get(calls[i].params, "order_id") == asked)
  {
    hide IsUsable, Uses, Known, RunFrom;
    var c := Start(ticketId, hasMessage, intent, context, expected);
    var calls := RunFrom(env, c, answers).s.calls;
    StartIsSafe(env, ticketId, hasMessage, intent, context, expected);
    StartIsExact(env, ticketId, hasMessage, intent, context, expected);
    StartIsTraced(env, ticketId, hasMessage, intent, context, expected);
    RunIsExact(env, c, answers);
    RunIsTraced(env, c, answers);
    j := RefundsFollowLookups(env, ticketId, hasMessage, intent, context, expected, answers, i);
    if Truthy(Get(calls[j].params, "order_id")) {
      UsableLookupEchoes(calls[j]);
      UsesTheOrder(env.parseFloat, calls[j], calls[i].params);
    }
  }

  lemma UsesTheOrder(parse: string -> Option<real>, r: Record, params: Dict)
    requires Uses(parse, r, params)
    ensures Get(params, "order_id") == Get(OrEmpty(r.data), "order_id")
  {
  }

  lemma StartIsTraced(env: Env, ticketId: string, hasMessage: bool, intent: string, context: Dict, expected: seq<string>)
    ensures Traced(env, Start(ticketId, hasMessage, intent, context, expected).s)
  {
  }
}
