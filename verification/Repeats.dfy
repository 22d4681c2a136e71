/** When a tool that already has a usable call is called again. With an LLM it can be: a plan may list a tool twice, or
    list one that is done. */
module Repeats {
  import opened Values
  import opened Records
  import opened Ordering
  import opened Dag
  import opened Executor
  import opened Critic
  import opened Pipeline
  import opened Safety
  import opened Provenance
  import opened Resolution
  import opened Worlds

  /** A plan entry, and how many calls the ticket had made when the executor came to it. */
  datatype Entry = Entry(tool: string, at: nat)

  function Reached(env: Env, iteration: nat, tools: seq<string>, t: Trace): seq<Entry> {
    if tools == [] then []
    else [Entry(tools[0], |t.calls|)] + Reached(env, iteration, tools[1..], ExecTool(env, iteration, tools[0], t))
  }

  /** The plan entries a run comes to. */
  function RunEntries(env: Env, c: Config, answers: seq<Answers>): seq<Entry>
    decreases |answers|
  {
    if answers == [] then []
    else (if c.node == Executing then Reached(env, c.s.iteration, Flatten(c.s.dag), Trace(c.s.context, c.s.calls)) else [])
         + RunEntries(env, Step(env, c, answers[0]), answers[1..])
  }

  /** An entry whose dependencies are usable when it is reached becomes the next call. */
  predicate Honoured(env: Env, e: Entry, calls: seq<Record>) {
    e.at <= |calls| && (DependenciesOf(e.tool) <= UsableTools(env, calls[..e.at]) ==> e.at < |calls| && calls[e.at].tool == e.tool)
  }

  /** The entries account for the calls from `from` on. */
  predicate Accounts(env: Env, entries: seq<Entry>, calls: seq<Record>, from: nat) {
    && (forall e :: e in entries ==> Honoured(env, e, calls))
    && (forall j :: from <= j < |calls| ==> Entry(calls[j].tool, j) in entries)
  }

  lemma {:induction false} ReachedAccounts(env: Env, iteration: nat, tools: seq<string>, t: Trace)
    ensures Accounts(env, Reached(env, iteration, tools, t), ExecTools(env, iteration, tools, t).calls, |t.calls|)
  {
    if tools != [] {
      hide UsableTools, Dispatch;
      var t1 := ExecTool(env, iteration, tools[0], t);
      var t' := ExecTools(env, iteration, tools[1..], t1);
      ReachedAccounts(env, iteration, tools[1..], t1);
      ExecToolsExtends(env, iteration, tools[1..], t1);
      HeadHonoured(env, iteration, tools[0], t, t'.calls);
      var rest := Reached(env, iteration, tools[1..], t1);
      assert forall e :: e in Reached(env, iteration, tools, t) <==> e == Entry(tools[0], |t.calls|) || e in rest;
    }
  }

  lemma HeadHonoured(env: Env, iteration: nat, tool: string, t: Trace, calls: seq<Record>)
    requires var t1 := ExecTool(env, iteration, tool, t); |t1.calls| <= |calls| && t1.calls == calls[..|t1.calls|]
    ensures Honoured(env, Entry(tool, |t.calls|), calls)
    ensures var t1 := ExecTool(env, iteration, tool, t);
            |t.calls| <= |t1.calls| && forall j :: |t.calls| <= j < |t1.calls| ==> j == |t.calls| && calls[j].tool == tool
  {
    hide UsableTools;
    var t1 := ExecTool(env, iteration, tool, t);
    DispatchNamesTool(env, iteration, tool, t);
    assert calls[..|t.calls|] == t.calls;
    if t1 != t { assert calls[|t.calls|] == t1.calls[|t.calls|]; }
  }

  lemma ReachedInside(env: Env, iteration: nat, tools: seq<string>, t: Trace, e: Entry, large: seq<Record>)
    requires e in Reached(env, iteration, tools, t) && IsPrefix(ExecTools(env, iteration, tools, t).calls, large)
    ensures Honoured(env, e, large)
    decreases |tools|
  {
    hide UsableTools, Dispatch;
    var t1 := ExecTool(env, iteration, tools[0], t);
    ExecToolsExtends(env, iteration, tools[1..], t1);
    if e == Entry(tools[0], |t.calls|) {
      assert large[..|t1.calls|] == t1.calls;
      HeadHonoured(env, iteration, tools[0], t, large);
    } else {
      ReachedInside(env, iteration, tools[1..], t1, e, large);
    }
  }

  /** The plan entries of a run account for its whole call log. */
  lemma {:induction false} EntriesAccount(env: Env, c: Config, answers: seq<Answers>)
    ensures Accounts(env, RunEntries(env, c, answers), RunFrom(env, c, answers).s.calls, |c.s.calls|)
    decreases |answers|
  {
    hide Step, UsableTools, Honoured, Reached, ExecTools;
    if answers != [] {
      var c' := Step(env, c, answers[0]);
      var calls := RunFrom(env, c', answers[1..]).s.calls;
      EntriesAccount(env, c', answers[1..]);
      StepExtendsCalls(env, c, answers[0]);
      RunExtendsCalls(env, c', answers[1..]);
      StepAccounts(env, c, answers[0], calls);
    }
  }

  lemma StepAccounts(env: Env, c: Config, a: Answers, calls: seq<Record>)
    requires IsPrefix(Step(env, c, a).s.calls, calls)
    ensures c.node == Executing ==>
              var entries := Reached(env, c.s.iteration, Flatten(c.s.dag), Trace(c.s.context, c.s.calls));
              && (forall e :: e in entries ==> Honoured(env, e, calls))
              && (forall j :: |c.s.calls| <= j < |Step(env, c, a).s.calls| ==> Entry(calls[j].tool, j) in entries)
    ensures c.node != Executing ==> Step(env, c, a).s.calls == c.s.calls
  {
    hide Judge, Plan, MemoryWrites, Remaining, UsableTools, Honoured, Reached, ExecTools;
    if c.node == Executing {
      var order, t := Flatten(c.s.dag), Trace(c.s.context, c.s.calls);
      ReachedAccounts(env, c.s.iteration, order, t);
      forall e | e in Reached(env, c.s.iteration, order, t) ensures Honoured(env, e, calls) {
        ReachedInside(env, c.s.iteration, order, t, e, calls);
      }
    }
  }

  /** For any LLM, memory and tools: a tool with a usable call is called again exactly if the run comes to a plan entry
      for it after that call. */
  lemma CalledAgainIffPlannedAgain(env: Env, ticketId: string, hasMessage: bool, intent: string, context: Dict,
                                   expected: seq<string>, answers: seq<Answers>, i: nat)
    requires var calls := RunFrom(env, Start(ticketId, hasMessage, intent, context, expected), answers).s.calls;
             i < |calls| && env.usable(calls[i])
    ensures var c := Start(ticketId, hasMessage, intent, context, expected);
            var calls := RunFrom(env, c, answers).s.calls;
            (exists j :: i < j < |calls| && calls[j].tool == calls[i].tool) <==>
            (exists e :: e in RunEntries(env, c, answers) && e.tool == calls[i].tool && e.at > i)
  {
    hide RunFrom, RunEntries, UsableTools;
    var c := Start(ticketId, hasMessage, intent, context, expected);
    var calls := RunFrom(env, c, answers).s.calls;
    EntriesAccount(env, c, answers);
    StartIsSafe(env, ticketId, hasMessage, intent, context, expected);
    RunIsSafe(env, c, answers);
    if j :| i < j < |calls| && calls[j].tool == calls[i].tool {
      assert Entry(calls[j].tool, j) in RunEntries(env, c, answers);
    }
    if e :| e in RunEntries(env, c, answers) && e.tool == calls[i].tool && e.at > i {
      assert Honoured(env, e, calls);
      StillOpen(env, calls, i, e.at);
    }
  }

  lemma StillOpen(env: Env, calls: seq<Record>, i: nat, at: nat)
    requires DependencySafe(env, calls) && i < at <= |calls|
    ensures DependenciesOf(calls[i].tool) <= UsableTools(env, calls[..at])
  {
    assert calls[..i] == calls[..at][..i];
    UsableToolsMonotone(env, calls[..i], calls[..at]);
  }

  // ---- two refunds ----

  const DOUBLE_PLAN: Layers := [["order_lookup"], ["refund", "refund"]]

  function Obliging(): Env {
    World(true, NEVER, NO_NUMERAL)
  }

  lemma ObligingIsProduction()
    ensures IsProduction(Obliging()) && Obliging().useLlm
  {
    ProductionIsProduction(true, ToolsOf(NEVER), NO_NUMERAL);
  }

  lemma DoublePlanIsKept(pending: set<string>)
    requires "order_lookup" in pending && "refund" in pending
    ensures Flatten(FilteredTo(DOUBLE_PLAN, pending)) == ["order_lookup", "refund", "refund"]
  {
    assert DOUBLE_PLAN[0] == ["order_lookup"] && DOUBLE_PLAN[1] == ["refund", "refund"];
    assert ["refund", "refund"][1..] == ["refund"] && ["refund"][1..] == [] && ["order_lookup"][1..] == [];
    assert KeepIn(["refund"], pending) == ["refund"];
    assert KeepIn(["refund", "refund"], pending) == ["refund", "refund"];
    assert KeepIn(["order_lookup"], pending) == ["order_lookup"];
    assert FilteredTo(DOUBLE_PLAN, pending) == DOUBLE_PLAN;
    assert DOUBLE_PLAN[1..] == [["refund", "refund"]] && DOUBLE_PLAN[1..][1..] == [];
    assert Flatten([["refund", "refund"]]) == ["refund", "refund"] + Flatten([]);
  }

  lemma ThreeTools(env: Env, iteration: nat, a: string, b: string, c: string, t: Trace)
    ensures ExecTools(env, iteration, [a, b, c], t) ==
            ExecTool(env, iteration, c, ExecTool(env, iteration, b, ExecTool(env, iteration, a, t)))
  {
    hide ExecTool;
    assert [a, b, c][1..] == [b, c] && [b, c][1..] == [c] && [c][1..] == [];
    var t2 := ExecTool(env, iteration, b, ExecTool(env, iteration, a, t));
    assert ExecTools(env, iteration, [c], t2) == ExecTools(env, iteration, [], ExecTool(env, iteration, c, t2));
    assert ExecTools(env, iteration, [b, c], ExecTool(env, iteration, a, t)) == ExecTools(env, iteration, [c], t2);
  }

  lemma DoublePlanRuns(iteration: nat, context: Dict)
    requires Identified(context)
    ensures var calls := ExecTools(Obliging(), iteration, ["order_lookup", "refund", "refund"], Trace(context, [])).calls;
            |calls| == 3 && calls[1].tool == "refund" && calls[2].tool == "refund"
  {
    hide World, Dispatch, ExecTools, UsableTools, Identified, UpdateContext;
    var env, t := Obliging(), Trace(context, []);
    ThreeTools(env, iteration, "order_lookup", "refund", "refund", t);
    assert DependenciesOf("order_lookup") == {} && DependenciesOf("refund") == {"order_lookup"};
    var r1 := Dispatch(env, iteration, "order_lookup", t);
    var t1 := Append(env, t, r1);
    DispatchAsTold(true, NEVER, NO_NUMERAL, iteration, "order_lookup", t);
    UsableToolsAppend(env, [], r1);
    var r2 := Dispatch(env, iteration, "refund", t1);
    var t2 := Append(env, t1, r2);
    DispatchNamesTool(env, iteration, "refund", t1);
    DispatchNamesTool(env, iteration, "refund", t2);
    UsableToolsAppend(env, t1.calls, r2);
  }

  lemma PlannedTwice(c: Config, a: Answers)
    requires c.node == Planner && c.s.hasMessage && "order_lookup" in c.s.pending && "refund" in c.s.pending
    requires c.s.calls == [] && Identified(c.s.context) && a.planReply == Some(DOUBLE_PLAN)
    ensures forall b :: var calls := Step(Obliging(), Step(Obliging(), c, a), b).s.calls;
                        |calls| == 3 && calls[1].tool == "refund" && calls[2].tool == "refund"
  {
    hide ExecTools, FilteredTo, Flatten, DOUBLE_PLAN, Identified;
    var env := Obliging();
    ObligingIsProduction();
    DoublePlanIsKept(Elements(c.s.pending));
    DoublePlanRuns(c.s.iteration + 1, c.s.context);
  }

  /** A refund request whose LLM plan lists the refund twice, with tools that answer as asked: the ticket is refunded
      twice. */
  lemma PlanCanRefundTwice(ticketId: string, context: Dict, answers: seq<Answers>)
    requires Identified(context) && |answers| >= 2 && answers[0].planReply == Some(DOUBLE_PLAN)
    ensures IsProduction(Obliging())
    ensures var c := Start(ticketId, true, "refund_request", context, IntentTools("refund_request"));
            var calls := RunFrom(Obliging(), c, answers).s.calls;
            && |calls| >= 3 && calls[1].tool == "refund" && calls[2].tool == "refund"
            && IsUsable(calls[1]) && IsUsable(calls[2])
  {
    hide Step, World, AsTold, Identified, DOUBLE_PLAN;
    var env := Obliging();
    var c := Start(ticketId, true, "refund_request", context, IntentTools("refund_request"));
    ObligingIsProduction();
    assert c.s.pending[1] == "order_lookup" && c.s.pending[2] == "refund";
    PlannedTwice(c, answers[0]);
    var d := Step(env, Step(env, c, answers[0]), answers[1]);
    var rest := answers[1..][1..];
    assert RunFrom(env, c, answers) == RunFrom(env, d, rest);
    RunExtendsCalls(env, d, rest);
    NothingToldYet(env, NEVER);
    RunsAsTold(true, NEVER, NO_NUMERAL, c, answers);
    UsableAsTold(RunFrom(env, c, answers).s.calls);
  }

  lemma UsableAsTold(calls: seq<Record>)
    requires AsTold(Obliging(), NEVER, calls)
    ensures forall r :: r in calls ==> IsUsable(r)
  {
    ObligingIsProduction();
  }
}
