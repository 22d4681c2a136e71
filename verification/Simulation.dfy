/** With the LLM off, the production graph and the research loop it ports are the same process. */
module Simulation {
  import opened Values
  import opened Records
  import opened Ordering
  import opened Dag
  import opened Executor
  import opened Critic
  import opened Pipeline
  import opened Safety
  import Accounting
  import Research

  /** No tool of a layer comes after one of its own dependencies. */
  predicate NoRace(layer: seq<string>) {
    forall i, j :: 0 <= i < j < |layer| ==> layer[i] !in DependenciesOf(layer[j])
  }

  /** The two markings of success, immediate and end-of-layer, open the same gates for `tools`. */
  predicate SameGates(env: Env, committed: seq<Record>, tools: seq<string>, t: Trace) {
    forall k :: 0 <= k < |tools| ==>
      (DependenciesOf(tools[k]) <= UsableTools(env, committed) <==> DependenciesOf(tools[k]) <= UsableTools(env, t.calls))
  }

  lemma SameGatesTail(env: Env, iteration: nat, committed: seq<Record>, tools: seq<string>, t: Trace)
    requires tools != [] && NoRace(tools) && SameGates(env, committed, tools, t)
    ensures SameGates(env, committed, tools[1..], ExecTool(env, iteration, tools[0], t))
  {
    var t1 := ExecTool(env, iteration, tools[0], t);
    if t1 != t { UsableToolsAppend(env, t.calls, Dispatch(env, iteration, tools[0], t)); }
    forall k | 0 <= k < |tools[1..]|
      ensures DependenciesOf(tools[1..][k]) <= UsableTools(env, t.calls) <==> DependenciesOf(tools[1..][k]) <= UsableTools(env, t1.calls)
    {
      assert tools[1..][k] == tools[k + 1] && tools[0] !in DependenciesOf(tools[k + 1]);
    }
  }

  lemma {:induction false} LayerAgrees(env: Env, iteration: nat, committed: seq<Record>, tools: seq<string>, t: Trace)
    requires NoRace(tools) && SameGates(env, committed, tools, t)
    ensures Research.RunLayerTools(env, iteration, committed, tools, t) == ExecTools(env, iteration, tools, t)
    decreases |tools|
  {
    if tools != [] {
      SameGatesTail(env, iteration, committed, tools, t);
      assert NoRace(tools[1..]);
      LayerAgrees(env, iteration, committed, tools[1..], ExecTool(env, iteration, tools[0], t));
    }
  }

  /** On any plan whose layers do not race, the layered executor and the production executor make the same calls
      and leave the same context, whatever the tools answer. */
  lemma {:induction false} PlanAgrees(env: Env, iteration: nat, layers: Layers, t: Trace)
    requires forall k :: 0 <= k < |layers| ==> NoRace(layers[k])
    ensures Research.RunLayers(env, iteration, layers, t) == ExecTools(env, iteration, Flatten(layers), t)
    decreases |layers|
  {
    if layers != [] {
      LayerAgrees(env, iteration, t.calls, layers[0], t);
      var t1 := ExecTools(env, iteration, layers[0], t);
      PlanAgrees(env, iteration, layers[1..], t1);
      ExecToolsAppend(env, iteration, layers[0], Flatten(layers[1..]), t);
    }
  }

  lemma LayerOfOneIndex(layer: seq<string>, index: nat)
    requires forall t :: t in layer ==> ToolLayer(t) == index
    ensures NoRace(layer)
  {
    KnownLayers();
    forall i, j | 0 <= i < j < |layer| ensures layer[i] !in DependenciesOf(layer[j]) {
      assert ToolLayer(layer[i]) == ToolLayer(layer[j]);
    }
  }

  /** The deterministic plan never races. */
  lemma FallbackDoesNotRace(pending: set<string>)
    ensures var plan := FromPendingTools(pending); forall k :: 0 <= k < |plan| ==> NoRace(plan[k])
  {
    var plan := FromPendingTools(pending);
    FallbackIsPlan(pending);
    PlanLayersNonEmpty(plan, pending, -1);
    forall k | 0 <= k < |plan| ensures NoRace(plan[k]) { LayerOfOneIndex(plan[k], IndexOf(plan[k])); }
  }

  /** The state of the graph at its planner matches the state of the loop at the top of an iteration. */
  predicate Matches(s: State, p: Research.Progress) {
    && Elements(s.pending) == p.pending && s.replans == p.replans
    && Trace(s.context, s.calls) == p.trace && Dated(s.calls, s.iteration)
  }

  /** Both pending-set updates leave the same tools, because a usable record is a successful one. */
  lemma UpdatesAgree(env: Env, pending: set<string>, results: seq<Record>, made: seq<Record>, v: CriticOutput)
    requires forall r :: env.usable(r) ==> r.success
    requires forall r :: r in results <==> r in made
    requires v.resolved <==> FailedIn(env, results) == {}
    requires Elements(v.failedTools) == FailedIn(env, results)
    ensures FailedIn(env, results) == FailedIn(env, made)
    ensures Remaining(env, pending, results, v) == Research.Update(env, pending, made)
  {
    assert FailedIn(env, results) == FailedIn(env, made);
    assert UsableTools(env, results) <= Research.Succeeded(made);
    assert Research.Succeeded(made) <= UsableTools(env, results) + FailedIn(env, results);
  }

  lemma FreshIsThisIteration(t: Trace, t': Trace, iteration: nat)
    requires |t.calls| <= |t'.calls| && t.calls == t'.calls[..|t.calls|]
    requires Dated(t.calls, iteration - 1) && forall r :: r in Fresh(t, t') ==> r.iteration == iteration
    ensures forall r :: r in OfIteration(t'.calls, iteration) <==> r in Fresh(t, t')
    ensures Dated(t'.calls, iteration)
  {
    CallsSplit(t, t');
  }

  lemma ExecutionMatches(env: Env, s: State, p: Research.Progress, a: Answers) returns (s': State)
    requires !env.useLlm && Matches(s, p)
    ensures s' == ExecutorNode(env, PlannerNode(env, s, a))
    ensures Trace(s'.context, s'.calls) == Research.RunLayers(env, s.iteration + 1, FromPendingTools(p.pending), p.trace)
    ensures forall r :: r in OfIteration(s'.calls, s.iteration + 1) <==> r in Fresh(p.trace, Trace(s'.context, s'.calls))
    ensures |p.trace.calls| <= |s'.calls| && Dated(s'.calls, s.iteration + 1)
    ensures s'.pending == s.pending && s'.replans == s.replans && s'.iteration == s.iteration + 1 && s'.expected == s.expected
  {
    var it := s.iteration + 1;
    var plan := FromPendingTools(p.pending);
    assert Plan(env, s, a) == plan;
    FallbackDoesNotRace(p.pending);
    PlanAgrees(env, it, plan, p.trace);
    ExecToolsExtends(env, it, Flatten(plan), p.trace);
    s' := ExecutorNode(env, PlannerNode(env, s, a));
    FreshIsThisIteration(p.trace, Trace(s'.context, s'.calls), it);
  }

  /** The state after planner, executor and critic. */
  function Cycle(env: Env, s: State, plan: Answers, verdict: Answers): State {
    CriticNode(env, ExecutorNode(env, PlannerNode(env, s, plan)), verdict)
  }

  lemma VerdictMatches(env: Env, s: State, p: Research.Progress, t: Trace, v: CriticOutput)
    requires forall r :: env.usable(r) ==> r.success
    requires Trace(s.context, s.calls) == t && |p.trace.calls| <= |t.calls| && Dated(t.calls, s.iteration)
    requires Elements(s.pending) == p.pending && s.replans == p.replans
    requires forall r :: r in OfIteration(t.calls, s.iteration) <==> r in Fresh(p.trace, t)
    requires v.resolved <==> FailedIn(env, OfIteration(t.calls, s.iteration)) == {}
    requires Elements(v.failedTools) == FailedIn(env, OfIteration(t.calls, s.iteration))
    ensures var made := Fresh(p.trace, t);
            Matches(ApplyVerdict(env, s, OfIteration(t.calls, s.iteration), v),
                    Research.Progress(Research.Update(env, p.pending, made), t,
                                      p.replans + if FailedIn(env, made) == {} then 0 else 1))
  {
    hide FailedIn, UsableTools, Research.Update, Research.Succeeded, Remaining;
    UpdatesAgree(env, p.pending, OfIteration(t.calls, s.iteration), Fresh(p.trace, t), v);
  }

  /** Planner, executor and critic together are one iteration of the loop. */
  lemma RoundMatches(env: Env, s: State, p: Research.Progress, plan: Answers, verdict: Answers)
    requires !env.useLlm && forall r :: env.usable(r) ==> r.success
    requires Matches(s, p)
    ensures var s' := Cycle(env, s, plan, verdict);
            && Matches(s', Research.Round(env, s.iteration + 1, p))
            && s'.iteration == s.iteration + 1 && s'.expected == s.expected
  {
    hide Judge, PlannerNode, ExecutorNode, FromPendingTools, Research.RunLayers, Research.Update, OfIteration, FailedIn;
    var m := ExecutionMatches(env, s, p, plan);
    var results := OfIteration(m.calls, m.iteration);
    var v := Judge(env, results, verdict.hits, verdict.criticReply);
    Accounting.OfflineVerdict(env, results, verdict.hits, verdict.criticReply);
    VerdictMatches(env, m, p, Trace(m.context, m.calls), v);
  }

  lemma AfterPlanner(env: Env, s: State, answers: seq<Answers>)
    requires answers != []
    ensures RunFrom(env, Config(Planner, s), answers) == RunFrom(env, Config(Executing, PlannerNode(env, s, answers[0])), answers[1..])
  {
  }

  lemma AfterExecutor(env: Env, s: State, answers: seq<Answers>)
    requires answers != []
    ensures RunFrom(env, Config(Executing, s), answers) == RunFrom(env, Config(Judging, ExecutorNode(env, s)), answers[1..])
  {
  }

  lemma AfterCritic(env: Env, s: State, answers: seq<Answers>)
    requires answers != []
    ensures var s' := CriticNode(env, s, answers[0]);
            RunFrom(env, Config(Judging, s), answers) == RunFrom(env, Config(RouteAfterCritic(s'), s'), answers[1..])
  {
  }

  lemma AfterCycle(env: Env, s: State, answers: seq<Answers>)
    requires |answers| >= 3
    ensures var s' := Cycle(env, s, answers[0], answers[2]);
            RunFrom(env, Config(Planner, s), answers) == RunFrom(env, Config(RouteAfterCritic(s'), s'), answers[3..])
  {
    var b := answers[1..];
    var d := b[1..];
    assert d[0] == answers[2] && d[1..] == answers[3..];
    AfterPlanner(env, s, answers);
    AfterExecutor(env, PlannerNode(env, s, answers[0]), b);
    AfterCritic(env, ExecutorNode(env, PlannerNode(env, s, answers[0])), d);
  }

  /** The nodes after the last critic step leave the log, the context and the counters alone. */
  predicate SameWork(s: State, s': State) {
    && s.calls == s'.calls && s.context == s'.context && s.pending == s'.pending
    && s.iteration == s'.iteration && s.replans == s'.replans && s.expected == s'.expected
  }

  lemma {:induction false} TailKeepsWork(env: Env, c: Config, answers: seq<Answers>)
    requires Finished(c.node)
    ensures SameWork(c.s, RunFrom(env, c, answers).s)
    decreases |answers|
  {
    if answers != [] { TailKeepsWork(env, Step(env, c, answers[0]), answers[1..]); }
  }

  lemma {:induction false} RunMatches(env: Env, s: State, p: Research.Progress, answers: seq<Answers>)
    requires !env.useLlm && forall r :: env.usable(r) ==> r.success
    requires Matches(s, p) && s.iteration < MAX_ITERATIONS && |answers| >= 3 * (MAX_ITERATIONS - s.iteration)
    ensures var f := RunFrom(env, Config(Planner, s), answers).s;
            var o := Research.Rounds(env, Elements(s.expected), s.iteration + 1, p);
            && Trace(f.context, f.calls) == o.progress.trace && Elements(f.pending) == o.progress.pending
            && f.replans == o.progress.replans && f.iteration == o.steps && f.expected == s.expected
    decreases |answers|
  {
    hide Cycle, Step, Research.Round;
    var s' := Cycle(env, s, answers[0], answers[2]);
    AfterCycle(env, s, answers);
    RoundMatches(env, s, p, answers[0], answers[2]);
    EmptyElements(s'.pending);
    if RouteAfterCritic(s') == Planner {
      RunMatches(env, s', Research.Round(env, s.iteration + 1, p), answers[3..]);
    } else {
      TailKeepsWork(env, Config(Response, s'), answers[3..]);
    }
  }

  /** With the LLM off, and usability, parameter preparation and tools shared (usable implying success): the graph
      and the research loop make the same calls in the same order, end with the same context, pending tools,
      iteration and replan counts, and reach the same verdict, for every tool sequence, every tool behaviour and
      every memory content. */
  lemma ProductionSimulatesResearch(env: Env, ticketId: string, hasMessage: bool, intent: string, context: Dict,
                                    expected: seq<string>, answers: seq<Answers>)
    requires !env.useLlm && |answers| >= 12
    requires forall r :: env.usable(r) ==> r.success
    ensures var f := RunFrom(env, Start(ticketId, hasMessage, intent, context, expected), answers).s;
            var o := Research.Rounds(env, Elements(expected), 1, Research.Progress(Elements(expected), Trace(context, []), 0));
            && f.calls == o.progress.trace.calls && f.context == o.progress.trace.context
            && Elements(f.pending) == o.progress.pending
            && f.iteration == o.steps && f.replans == o.progress.replans
            && f.resolved == o.resolved
  {
    var c := Start(ticketId, hasMessage, intent, context, expected);
    RunMatches(env, c.s, Research.Progress(Elements(expected), Trace(context, []), 0), answers);
    EveryRunEnds(env, ticketId, hasMessage, intent, context, expected, answers);
    assert forall t :: t in expected <==> t in Elements(expected);
  }
}
