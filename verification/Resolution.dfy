/** When a ticket resolves with the LLM off, in terms of how often its tools fail. */
module Resolution {
  import opened Values
  import opened Records
  import opened Ordering
  import opened Dag
  import opened Executor
  import opened Critic
  import opened Pipeline
  import opened Safety
  import opened Accounting

  function CallsTo(calls: seq<Record>, tool: string): (n: nat)
    ensures n <= |calls|
  {
    if calls == [] then 0
    else CallsTo(calls[..|calls| - 1], tool) + if calls[|calls| - 1].tool == tool then 1 else 0
  }

  lemma CallsToAppend(calls: seq<Record>, r: Record, tool: string)
    ensures CallsTo(calls + [r], tool) == CallsTo(calls, tool) + if r.tool == tool then 1 else 0
  {
    assert (calls + [r])[..|calls|] == calls;
  }

  /** The tool's first `n` calls are unusable and all later ones are usable. */
  predicate FailsFirst(env: Env, calls: seq<Record>, tool: string, n: nat) {
    forall i {:trigger CallsTo(calls[..i], tool)} :: 0 <= i < |calls| && calls[i].tool == tool ==>
      (env.usable(calls[i]) <==> CallsTo(calls[..i], tool) >= n)
  }

  lemma FailsFirstPrefix(env: Env, small: seq<Record>, large: seq<Record>, tool: string, n: nat)
    requires |small| <= |large| && small == large[..|small|] && FailsFirst(env, large, tool, n)
    ensures FailsFirst(env, small, tool, n)
  {
    forall i | 0 <= i < |small| && small[i].tool == tool
      ensures env.usable(small[i]) <==> CallsTo(small[..i], tool) >= n
    {
      assert small[i] == large[i] && small[..i] == large[..i];
    }
  }

  /** Such a tool has become usable exactly when it was called more than `n` times. */
  lemma {:induction false} UsableAfterFailures(env: Env, calls: seq<Record>, tool: string, n: nat)
    requires FailsFirst(env, calls, tool, n)
    ensures tool in UsableTools(env, calls) <==> CallsTo(calls, tool) > n
  {
    if calls != [] {
      var rest, r := calls[..|calls| - 1], calls[|calls| - 1];
      assert calls == rest + [r];
      FailsFirstPrefix(env, rest, calls, tool, n);
      UsableAfterFailures(env, rest, tool, n);
      UsableToolsAppend(env, rest, r);
    }
  }

  // ---- one iteration ----

  lemma LookupFirstTail(tools: seq<string>)
    requires tools != [] && NoDup(tools) && LookupFirst(tools)
    ensures NoDup(tools[1..]) && LookupFirst(tools[1..])
    ensures tools[0] !in tools[1..]
    ensures tools[0] == "refund" ==> "order_lookup" !in tools[1..]
  {
    var rest := tools[1..];
    forall i | 0 <= i < |rest| ensures rest[i] == tools[i + 1] { }
  }

  lemma UsableOnlyIfListed(env: Env, iteration: nat, tools: seq<string>, t: Trace, tool: string)
    requires tool !in tools
    ensures tool in UsableTools(env, ExecTools(env, iteration, tools, t).calls) <==> tool in UsableTools(env, t.calls)
  {
    var t' := ExecTools(env, iteration, tools, t);
    ExecToolsExtends(env, iteration, tools, t);
    CallsSplit(t, t');
  }

  lemma {:induction false} CalledOnlyIfListed(env: Env, iteration: nat, tools: seq<string>, t: Trace, tool: string)
    requires tool !in tools
    ensures CallsTo(ExecTools(env, iteration, tools, t).calls, tool) == CallsTo(t.calls, tool)
  {
    if tools != [] {
      var t1 := ExecTool(env, iteration, tools[0], t);
      CalledOnlyIfListed(env, iteration, tools[1..], t1, tool);
      if t1 != t { CallsToAppend(t.calls, Dispatch(env, iteration, tools[0], t), tool); }
    }
  }

  /** Dispatching a list that looks orders up before it refunds calls each listed tool once, a refund only if the
      lookup has become usable by then. */
  lemma {:induction false} IterationCalls(env: Env, iteration: nat, tools: seq<string>, t: Trace, tool: string)
    requires NoDup(tools) && LookupFirst(tools)
    ensures var t' := ExecTools(env, iteration, tools, t);
            CallsTo(t'.calls, tool) == CallsTo(t.calls, tool) +
              if tool in tools && (tool == "refund" ==> "order_lookup" in UsableTools(env, t'.calls)) then 1 else 0
  {
    if tools != [] {
      hide UsableTools, NoDup, LookupFirst, Dispatch, Append;
      var head, rest := tools[0], tools[1..];
      LookupFirstTail(tools);
      var t1 := ExecTool(env, iteration, head, t);
      HeadCalls(env, iteration, head, t, tool);
      assert tool in tools <==> tool == head || tool in rest;
      if tool == head {
        CalledOnlyIfListed(env, iteration, rest, t1, tool);
        if head == "refund" {
          UsableOnlyIfListed(env, iteration, rest, t1, "order_lookup");
          RefundLeavesLookup(env, iteration, t);
        }
      } else {
        IterationCalls(env, iteration, rest, t1, tool);
      }
    }
  }

  lemma HeadCalls(env: Env, iteration: nat, head: string, t: Trace, tool: string)
    ensures CallsTo(ExecTool(env, iteration, head, t).calls, tool) == CallsTo(t.calls, tool) +
              if tool == head && (head == "refund" ==> "order_lookup" in UsableTools(env, t.calls)) then 1 else 0
  {
    CallsToAppend(t.calls, Dispatch(env, iteration, head, t), tool);
    assert head != "refund" ==> DependenciesOf(head) == {};
    assert DependenciesOf("refund") == {"order_lookup"};
  }

  lemma RefundLeavesLookup(env: Env, iteration: nat, t: Trace)
    ensures "order_lookup" in UsableTools(env, ExecTool(env, iteration, "refund", t).calls)
            <==> "order_lookup" in UsableTools(env, t.calls)
  {
    UsableToolsAppend(env, t.calls, Dispatch(env, iteration, "refund", t));
  }

  // ---- counting through a run ----

  function Least2(a: nat, b: nat): nat {
    if a <= b then a else b
  }

  /** How often a tool has been called after `n` iterations: until it is usable once, a refund from the iteration on in
      which the lookup is. */
  function CallsAfter(f: string -> nat, tool: string, n: nat): nat {
    if tool == "refund" then Least2(if n >= f("order_lookup") then n - f("order_lookup") else 0, 1 + f(tool))
    else Least2(n, 1 + f(tool))
  }

  /** The iteration in which a tool becomes usable. */
  function Needed(f: string -> nat, tool: string): nat {
    1 + f(tool) + if tool == "refund" then f("order_lookup") else 0
  }

  lemma UsableWhenNeeded(f: string -> nat, tool: string, n: nat)
    ensures CallsAfter(f, tool, n) > f(tool) <==> Needed(f, tool) <= n
  {
  }

  function Done(c: Config): int {
    if c.node == Executing then c.s.iteration - 1 else c.s.iteration
  }

  predicate AllFailFirst(env: Env, expected: seq<string>, calls: seq<Record>, f: string -> nat) {
    forall t :: t in expected ==> FailsFirst(env, calls, t, f(t))
  }

  predicate Called(c: Config, f: string -> nat) {
    Done(c) >= 0 && forall t :: t in c.s.expected ==> CallsTo(c.s.calls, t) == CallsAfter(f, t, Done(c))
  }

  lemma IterationCounts(env: Env, iteration: nat, expected: seq<string>, t: Trace, f: string -> nat, n: nat, tool: string)
    requires Closed(Elements(expected)) && tool in expected
    requires forall x :: x in expected ==> CallsTo(t.calls, x) == CallsAfter(f, x, n)
    requires var pending := Elements(expected) - UsableTools(env, t.calls);
             var t' := ExecTools(env, iteration, Flatten(FromPendingTools(pending)), t);
             AllFailFirst(env, expected, t.calls, f) && AllFailFirst(env, expected, t'.calls, f)
    ensures var pending := Elements(expected) - UsableTools(env, t.calls);
            CallsTo(ExecTools(env, iteration, Flatten(FromPendingTools(pending)), t).calls, tool) == CallsAfter(f, tool, n + 1)
  {
    hide InLayerOrder, LookupFirst, NoDup;
    hide FromPendingTools, ExecTools, FailsFirst, UsableTools, Flatten;
    var pending := Elements(expected) - UsableTools(env, t.calls);
    var order := Flatten(FromPendingTools(pending));
    var t' := ExecTools(env, iteration, order, t);
    FallbackCoversOnce(pending);
    LayerOrderLooksUpFirst(order);
    assert forall x :: x in order <==> x in Elements(order);
    IterationCalls(env, iteration, order, t, tool);
    UsableAfterFailures(env, t.calls, tool, f(tool));
    if tool == "refund" {
      assert tool in Elements(expected);
      assert "order_lookup" in expected;
      IterationCalls(env, iteration, order, t, "order_lookup");
      UsableAfterFailures(env, t.calls, "order_lookup", f("order_lookup"));
      UsableAfterFailures(env, t'.calls, "order_lookup", f("order_lookup"));
    }
  }

  predicate IsPrefix(small: seq<Record>, large: seq<Record>) {
    |small| <= |large| && small == large[..|small|]
  }

  lemma PrefixTransitive(a: seq<Record>, b: seq<Record>, c: seq<Record>)
    requires IsPrefix(a, b) && IsPrefix(b, c)
    ensures IsPrefix(a, c)
  {
  }

  lemma StepExtendsCalls(env: Env, c: Config, a: Answers)
    ensures IsPrefix(c.s.calls, Step(env, c, a).s.calls) && Step(env, c, a).s.expected == c.s.expected
  {
    hide Judge, Plan, MemoryWrites, Remaining, ExecTools, Resolved;
    if c.node == Executing { ExecToolsExtends(env, c.s.iteration, Flatten(c.s.dag), Trace(c.s.context, c.s.calls)); }
  }

  /** A run only adds calls. */
  lemma {:induction false} RunExtendsCalls(env: Env, c: Config, answers: seq<Answers>)
    ensures IsPrefix(c.s.calls, RunFrom(env, c, answers).s.calls) && RunFrom(env, c, answers).s.expected == c.s.expected
    decreases |answers|
  {
    hide Step, IsPrefix;
    if answers == [] {
      PrefixOfItself(c.s.calls);
    } else {
      var c' := Step(env, c, answers[0]);
      StepExtendsCalls(env, c, answers[0]);
      RunExtendsCalls(env, c', answers[1..]);
      PrefixTransitive(c.s.calls, c'.s.calls, RunFrom(env, c', answers[1..]).s.calls);
    }
  }

  lemma PrefixOfItself(calls: seq<Record>)
    ensures IsPrefix(calls, calls)
  {
  }

  lemma AllFailFirstPrefix(env: Env, expected: seq<string>, small: seq<Record>, large: seq<Record>, f: string -> nat)
    requires IsPrefix(small, large) && AllFailFirst(env, expected, large, f)
    ensures AllFailFirst(env, expected, small, f)
  {
    hide FailsFirst;
    forall t | t in expected ensures FailsFirst(env, small, t, f(t)) { FailsFirstPrefix(env, small, large, t, f(t)); }
  }

  lemma StepCounts(env: Env, c: Config, a: Answers, f: string -> nat)
    requires Exact(env, c) && Closed(Elements(c.s.expected)) && Called(c, f)
    requires AllFailFirst(env, c.s.expected, c.s.calls, f) && AllFailFirst(env, c.s.expected, Step(env, c, a).s.calls, f)
    ensures Called(Step(env, c, a), f)
  {
    hide Judge, Plan, MemoryWrites, Remaining, FailsFirst, CallsTo, FromPendingTools, ExecTools, UsableTools, CallsAfter;
    if c.node == Executing {
      forall t | t in c.s.expected
        ensures CallsTo(ExecutorNode(env, c.s).calls, t) == CallsAfter(f, t, Done(c) + 1)
      {
        IterationCounts(env, c.s.iteration, c.s.expected, Trace(c.s.context, c.s.calls), f, Done(c), t);
      }
    }
  }

  // ---- the run goes on only as long as a tool needs it ----

  predicate StillNeeded(c: Config, f: string -> nat) {
    var past := if c.node == Planner then c.s.iteration else c.s.iteration - 1;
    past <= 0 || exists t :: t in c.s.expected && Needed(f, t) > past
  }

  lemma PendingIsNeeded(env: Env, s: State, f: string -> nat)
    requires AllFailFirst(env, s.expected, s.calls, f) && s.pending != []
    requires forall t :: t in s.expected ==> CallsTo(s.calls, t) == CallsAfter(f, t, s.iteration)
    requires ExactBetween(env, s.expected, s.pending, s.calls)
    ensures exists t :: t in s.expected && Needed(f, t) > s.iteration
  {
    hide FailsFirst, CallsTo, UsableTools, CallsAfter;
    var t := s.pending[0];
    assert t in Elements(s.pending);
    UsableAfterFailures(env, s.calls, t, f(t));
    UsableWhenNeeded(f, t, s.iteration);
  }

  lemma StepStaysNeeded(env: Env, c: Config, a: Answers, f: string -> nat)
    requires Exact(env, Step(env, c, a)) && AllFailFirst(env, c.s.expected, Step(env, c, a).s.calls, f)
    requires Called(Step(env, c, a), f) && StillNeeded(c, f)
    ensures StillNeeded(Step(env, c, a), f)
  {
    hide Step, FailsFirst, CallsTo, CallsAfter, Needed, Exact, Called;
    var c' := Step(env, c, a);
    StepShape(env, c, a);
    if c'.node == Planner { PlannerIsNeeded(env, c', f); }
  }

  /** What a step does to the iteration counter, and when it leads back to the planner. */
  lemma StepShape(env: Env, c: Config, a: Answers)
    ensures var c' := Step(env, c, a);
            && c'.s.expected == c.s.expected
            && c'.s.iteration == c.s.iteration + (if c.node == Planner then 1 else 0)
            && (c'.node == Planner ==> c.node == Judging && c'.s.pending != [])
  {
    hide Judge, Plan, MemoryWrites, Remaining, ExecTools, Resolved, Sorted, OfIteration, Flatten;
    match c.node
    case Planner => assert PlannerNode(env, c.s, a).iteration == c.s.iteration + 1;
    case Executing => assert ExecutorNode(env, c.s).iteration == c.s.iteration;
    case Judging => assert CriticNode(env, c.s, a).iteration == c.s.iteration;
    case _ =>
  }

  lemma PlannerIsNeeded(env: Env, c: Config, f: string -> nat)
    requires c.node == Planner && c.s.pending != []
    requires Exact(env, c) && Called(c, f) && AllFailFirst(env, c.s.expected, c.s.calls, f)
    ensures exists t :: t in c.s.expected && Needed(f, t) > c.s.iteration
  {
    hide FailsFirst, CallsTo, UsableTools, CallsAfter, Needed, ExactLog, Counted;
    PendingIsNeeded(env, c.s, f);
  }

  lemma {:induction false} RunCounts(env: Env, c: Config, answers: seq<Answers>, f: string -> nat)
    requires !env.useLlm && Safe(env, c) && Exact(env, c) && Closed(Elements(c.s.expected))
    requires Called(c, f) && StillNeeded(c, f) && AllFailFirst(env, c.s.expected, RunFrom(env, c, answers).s.calls, f)
    ensures var d := RunFrom(env, c, answers); Called(d, f) && StillNeeded(d, f)
    decreases |answers|
  {
    hide Step, Safe, Exact, Called, StillNeeded, AllFailFirst, Closed, IsPrefix;
    if answers != [] {
      var c' := Step(env, c, answers[0]);
      var d := RunFrom(env, c', answers[1..]);
      StepKeepsSafe(env, c, answers[0]);
      StepKeepsExact(env, c, answers[0]);
      StepExtendsCalls(env, c, answers[0]);
      RunExtendsCalls(env, c', answers[1..]);
      PrefixTransitive(c.s.calls, c'.s.calls, d.s.calls);
      AllFailFirstPrefix(env, c.s.expected, c.s.calls, d.s.calls, f);
      AllFailFirstPrefix(env, c.s.expected, c'.s.calls, d.s.calls, f);
      StepCounts(env, c, answers[0], f);
      StepStaysNeeded(env, c, answers[0], f);
      RunCounts(env, c', answers[1..], f);
    }
  }

  lemma StartCounts(env: Env, ticketId: string, hasMessage: bool, intent: string, context: Dict, expected: seq<string>,
                    f: string -> nat)
    ensures var c := Start(ticketId, hasMessage, intent, context, expected); Called(c, f) && StillNeeded(c, f)
  {
  }

  /** With the LLM off and a dependency-closed tool set, a ticket whose tools fail their first `f` calls resolves exactly
      if every tool becomes usable by the third iteration: at most two failures each, and at most two of the lookup and
      the refund together. It then stops in the iteration in which the last tool does, and every tool was called until
      it was usable once, a refund from the lookup's iteration on. */
  lemma ResolvesInTime(env: Env, ticketId: string, hasMessage: bool, intent: string, context: Dict,
                       expected: seq<string>, answers: seq<Answers>, f: string -> nat)
    requires !env.useLlm && |answers| >= 12 && Closed(Elements(expected))
    requires AllFailFirst(env, expected, RunFrom(env, Start(ticketId, hasMessage, intent, context, expected), answers).s.calls, f)
    ensures var d := RunFrom(env, Start(ticketId, hasMessage, intent, context, expected), answers).s;
            && (d.resolved <==> forall t :: t in expected ==> Needed(f, t) <= 3)
            && (d.resolved ==> forall t :: t in expected ==> Needed(f, t) <= d.iteration)
            && (d.resolved && d.iteration > 1 ==> exists t :: t in expected && Needed(f, t) == d.iteration)
            && (!d.resolved ==> d.iteration == 3)
            && (forall t :: t in expected ==> CallsTo(d.calls, t) == CallsAfter(f, t, d.iteration))
  {
    hide RunFrom, Safe, Exact, FailsFirst, UsableTools, CallsTo, CallsAfter, Needed, Closed;
    var c := Start(ticketId, hasMessage, intent, context, expected);
    var d := RunFrom(env, c, answers);
    StartIsSafe(env, ticketId, hasMessage, intent, context, expected);
    StartIsExact(env, ticketId, hasMessage, intent, context, expected);
    StartCounts(env, ticketId, hasMessage, intent, context, expected, f);
    RunCounts(env, c, answers, f);
    RunExtendsCalls(env, c, answers);
    EveryRunEnds(env, ticketId, hasMessage, intent, context, expected, answers);
    forall t | t in expected ensures t in UsableTools(env, d.s.calls) <==> Needed(f, t) <= d.s.iteration {
      UsableAfterFailures(env, d.s.calls, t, f(t));
      UsableWhenNeeded(f, t, d.s.iteration);
    }
  }
}
