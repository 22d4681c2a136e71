/** Concrete tools for the production executor: they answer as asked, except for the calls they are told to fail. */
module Worlds {
  import opened Values
  import opened Records
  import opened Ordering
  import opened Dag
  import opened Executor
  import opened Critic
  import opened Pipeline
  import opened Resolution
  import opened Provenance

  /** The requested identifier, or some other one if none was requested. */
  function Echoed(params: Dict, key: string, other: string): Value {
    if Truthy(Get(params, key)) then Get(params, key) else Str(other)
  }

  function GoodData(tool: string, params: Dict): Dict {
    if tool == "crm" then
      map["customer_id" := Echoed(params, "customer_id", "C"), "tier" := Str("gold"), "lifetime_value" := Num(1.0)]
    else if tool == "order_lookup" then
      map["order_id" := Echoed(params, "order_id", "O"), "status" := Str("shipped")]
    else if tool == "refund" then
      map["refund_id" := Str("R"), "order_id" := Echoed(params, "order_id", "O"), "status" := Str("approved")]
    else map["result_count" := Num(0.0)]
  }

  function GoodRecord(tool: string, params: Dict, iteration: nat): Record {
    Record(tool, params, true, None, Some(GoodData(tool, params)), iteration)
  }

  lemma GoodCustomer(params: Dict, iteration: nat)
    ensures IsUsable(GoodRecord("crm", params, iteration)) <==> Get(params, "customer_id") != Str("not_found")
  {
    var d := GoodData("crm", params);
    assert Get(d, "customer_id") == Echoed(params, "customer_id", "C") && Get(d, "status") == Null;
    assert Get(d, "tier") == Str("gold") && Get(d, "lifetime_value") == Num(1.0);
    assert "gold"[0] == 'g' && "unknown"[0] == 'u' && |"C"| == 1 && |"not_found"| == 9;
  }

  lemma GoodOrder(params: Dict, iteration: nat)
    ensures IsUsable(GoodRecord("order_lookup", params, iteration))
  {
    var d := GoodData("order_lookup", params);
    assert Get(d, "order_id") == Echoed(params, "order_id", "O") && Get(d, "status") == Str("shipped");
    assert "shipped"[0] == 's' && "not_found"[0] == 'n' && "UNKNOWN"[0] == 'U';
  }

  lemma GoodRefund(params: Dict, iteration: nat)
    ensures IsUsable(GoodRecord("refund", params, iteration))
  {
    var d := GoodData("refund", params);
    assert Get(d, "order_id") == Echoed(params, "order_id", "O") && Get(d, "status") == Str("approved");
    assert Get(d, "refund_id") == Str("R");
  }

  lemma GoodOther(tool: string, params: Dict, iteration: nat)
    requires tool != "crm" && tool != "order_lookup" && tool != "refund"
    ensures IsUsable(GoodRecord(tool, params, iteration))
  {
    var d := GoodData(tool, params);
    assert Get(d, "result_count") == Num(0.0) && "message" !in d;
  }

  /** Every good record is usable, except of the one customer whose identifier the check takes for a failure. */
  lemma GoodIsUsable(tool: string, params: Dict, iteration: nat)
    ensures IsUsable(GoodRecord(tool, params, iteration)) <==>
            !(tool == "crm" && Get(params, "customer_id") == Str("not_found"))
  {
    hide IsUsable, GoodData;
    if tool == "crm" { GoodCustomer(params, iteration); }
    else if tool == "order_lookup" { GoodOrder(params, iteration); }
    else if tool == "refund" { GoodRefund(params, iteration); }
    else { GoodOther(tool, params, iteration); }
  }

  /** Which calls fail, given the calls made before and the tool. */
  type Failing = (seq<Record>, string) -> bool

  function ToolsOf(fails: Failing): (seq<Record>, string, Dict) -> ToolResult {
    (log: seq<Record>, tool: string, params: Dict) =>
      if fails(log, tool) then ToolResult(false, None, Some("timeout"), Some(Timeout))
      else ToolResult(true, Some(GoodData(tool, params)), None, None)
  }

  /** The production executor with these tools. */
  function World(useLlm: bool, fails: Failing, parse: string -> Option<real>): Env {
    Production(useLlm, ToolsOf(fails), parse)
  }

  lemma WorldAnswers(useLlm: bool, fails: Failing, parse: string -> Option<real>, iteration: nat, tool: string, t: Trace)
    requires tool == "crm" ==> Get(t.context, "customer_id") != Str("not_found")
    ensures var env := World(useLlm, fails, parse);
            && IsProduction(env)
            && (env.usable(Dispatch(env, iteration, tool, t)) <==> !fails(t.calls, tool))
  {
    hide GoodData, IsUsable;
    var env := World(useLlm, fails, parse);
    ProductionIsProduction(useLlm, ToolsOf(fails), parse);
    var params := PrepareParams(parse, tool, t.context);
    if tool == "crm" { CrmAsksContext(parse, t.context); }
    GoodIsUsable(tool, params, iteration);
    if fails(t.calls, tool) { FailureIsUnusable(Dispatch(env, iteration, tool, t)); }
  }

  lemma CrmAsksContext(parse: string -> Option<real>, context: Dict)
    ensures Get(PrepareParams(parse, "crm", context), "customer_id") == Get(context, "customer_id")
  {
  }

  lemma FailureIsUnusable(r: Record)
    requires !r.success
    ensures !IsUsable(r)
  {
  }

  const NEVER: Failing := (log: seq<Record>, tool: string) => false

  const NO_NUMERAL: string -> Option<real> := s => None

  // ---- runs in such a world ----

  /** Each call in the log came out as told. */
  predicate AsTold(env: Env, fails: Failing, calls: seq<Record>) {
    forall i :: 0 <= i < |calls| ==> (env.usable(calls[i]) <==> !fails(calls[..i], calls[i].tool))
  }

  predicate Identified(context: Dict) {
    Get(context, "customer_id") != Str("not_found")
  }

  /** The executor never takes over an identifier that stands for a failed lookup. */
  lemma UpdateIdentifies(parse: string -> Option<real>, context: Dict, r: Record)
    requires Identified(context)
    ensures Identified(context + UpdateContext(parse, r))
  {
    var u := UpdateContext(parse, r);
    assert "order_id" != "customer_id" && "amount" != "customer_id" by { assert |"order_id"| == 8 && |"customer_id"| == 11; }
  }

  lemma AppendAsTold(env: Env, fails: Failing, calls: seq<Record>, r: Record)
    requires AsTold(env, fails, calls) && (env.usable(r) <==> !fails(calls, r.tool))
    ensures AsTold(env, fails, calls + [r])
  {
    var all := calls + [r];
    assert all[..|calls|] == calls;
    forall i | 0 <= i < |calls| ensures all[i] == calls[i] && all[..i] == calls[..i] { }
  }

  lemma {:induction false} ExecToolsAsTold(useLlm: bool, fails: Failing, parse: string -> Option<real>, iteration: nat,
                                           tools: seq<string>, t: Trace)
    requires AsTold(World(useLlm, fails, parse), fails, t.calls) && Identified(t.context)
    ensures var t' := ExecTools(World(useLlm, fails, parse), iteration, tools, t);
            AsTold(World(useLlm, fails, parse), fails, t'.calls) && Identified(t'.context)
  {
    hide World, AsTold, Dispatch, Identified;
    var env := World(useLlm, fails, parse);
    if tools != [] {
      var t1 := ExecTool(env, iteration, tools[0], t);
      if t1 != t {
        var r := Dispatch(env, iteration, tools[0], t);
        DispatchAsTold(useLlm, fails, parse, iteration, tools[0], t);
        AppendAsTold(env, fails, t.calls, r);
        UpdateIdentifies(env.parseFloat, t.context, r);
      }
      ExecToolsAsTold(useLlm, fails, parse, iteration, tools[1..], t1);
    }
  }

  lemma DispatchAsTold(useLlm: bool, fails: Failing, parse: string -> Option<real>, iteration: nat, tool: string, t: Trace)
    requires Identified(t.context)
    ensures var env := World(useLlm, fails, parse);
            var r := Dispatch(env, iteration, tool, t);
            r.tool == tool && (env.usable(r) <==> !fails(t.calls, tool))
  {
    hide World;
    DispatchNamesTool(World(useLlm, fails, parse), iteration, tool, t);
    WorldAnswers(useLlm, fails, parse, iteration, tool, t);
  }

  /** Whatever the LLMs and the memory answer, every call of a run comes out as told. */
  lemma {:induction false} RunsAsTold(useLlm: bool, fails: Failing, parse: string -> Option<real>, c: Config,
                                      answers: seq<Answers>)
    requires AsTold(World(useLlm, fails, parse), fails, c.s.calls) && Identified(c.s.context)
    ensures var d := RunFrom(World(useLlm, fails, parse), c, answers);
            AsTold(World(useLlm, fails, parse), fails, d.s.calls) && Identified(d.s.context)
    decreases |answers|
  {
    hide World, AsTold, Identified, Judge, Plan, MemoryWrites, Remaining, ExecTools;
    var env := World(useLlm, fails, parse);
    if answers != [] {
      if c.node == Executing {
        ExecToolsAsTold(useLlm, fails, parse, c.s.iteration, Flatten(c.s.dag), Trace(c.s.context, c.s.calls));
      }
      RunsAsTold(useLlm, fails, parse, Step(env, c, answers[0]), answers[1..]);
    }
  }

  // ---- tools that fail a number of times each ----

  function FirstCalls(f: string -> nat): Failing {
    (log: seq<Record>, tool: string) => CallsTo(log, tool) < f(tool)
  }

  lemma ToldToFailFirst(env: Env, calls: seq<Record>, tool: string, f: string -> nat)
    requires AsTold(env, FirstCalls(f), calls)
    ensures FailsFirst(env, calls, tool, f(tool))
  {
  }

  /** For every number of failures per tool there is such a production world. */
  lemma FailuresAreArbitrary(useLlm: bool, f: string -> nat, parse: string -> Option<real>, ticketId: string, hasMessage: bool,
                             intent: string, context: Dict, expected: seq<string>, answers: seq<Answers>)
    requires Identified(context)
    ensures var env := World(useLlm, FirstCalls(f), parse);
            && IsProduction(env) && env.useLlm == useLlm
            && AllFailFirst(env, expected, RunFrom(env, Start(ticketId, hasMessage, intent, context, expected), answers).s.calls, f)
  {
    hide RunFrom, FailsFirst, AsTold, FirstCalls;
    var env := World(useLlm, FirstCalls(f), parse);
    var c := Start(ticketId, hasMessage, intent, context, expected);
    ProductionIsProduction(useLlm, ToolsOf(FirstCalls(f)), parse);
    NothingToldYet(env, FirstCalls(f));
    RunsAsTold(useLlm, FirstCalls(f), parse, c, answers);
    forall t | t in expected ensures FailsFirst(env, RunFrom(env, c, answers).s.calls, t, f(t)) {
      ToldToFailFirst(env, RunFrom(env, c, answers).s.calls, t, f);
    }
  }

  lemma NothingToldYet(env: Env, fails: Failing)
    ensures AsTold(env, fails, [])
  {
  }
}
