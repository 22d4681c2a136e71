/** The research loop with its LLMs on (experiments/memory_augmented_v2.py), against the production graph. Its planner and
    critic answer as production's do; it differs in gating a layer by the calls before it and in taking a tool off the
    pending set once a call to it succeeded, usable or not. */
module MemoryLoop {
  import opened Values
  import opened Records
  import opened Ordering
  import opened Dag
  import opened Executor
  import opened Critic
  import opened Pipeline
  import opened Safety
  import opened Simulation
  import Accounting
  import Provenance
  import Research

  function PlanFor(env: Env, hasMessage: bool, pending: set<string>, a: Answers): Layers {
    if !env.useLlm || !hasMessage || a.planReply.None? then FromPendingTools(pending)
    else FilteredTo(a.planReply.value, pending)
  }

  /** The pending set after a verdict, by success. */
  function Update(pending: set<string>, results: seq<Record>, v: CriticOutput): set<string> {
    var rest := pending - Research.Succeeded(results);
    if v.resolved then rest else Elements(v.failedTools) + rest
  }

  /** One iteration of the loop, with the planner's and the critic's answers. */
  function Round(env: Env, hasMessage: bool, iteration: nat, p: Research.Progress, plan: Answers,
                 verdict: Answers): Research.Progress
  {
    var t := Research.RunLayers(env, iteration, PlanFor(env, hasMessage, p.pending, plan), p.trace);
    var made := Fresh(p.trace, t);
    var v := Judge(env, made, verdict.hits, verdict.criticReply);
    Research.Progress(Update(p.pending, made, v), t, p.replans + if v.resolved then 0 else 1)
  }

  function Rounds(env: Env, hasMessage: bool, expected: set<string>, iteration: nat, p: Research.Progress,
                  answers: seq<Answers>): Research.Outcome
    requires iteration <= Research.MAX_ROUNDS && |answers| >= 3 * (Research.MAX_ROUNDS + 1 - iteration)
    decreases Research.MAX_ROUNDS - iteration
  {
    var p' := Round(env, hasMessage, iteration, p, answers[0], answers[2]);
    if p'.pending == {} || iteration == Research.MAX_ROUNDS
    then Research.Outcome(p', iteration, Research.AllUsable(env, expected, p'.trace.calls))
    else Rounds(env, hasMessage, expected, iteration + 1, p', answers[3..])
  }

  /** The body of the loop. */
  method Iterate(env: Env, hasMessage: bool, iteration: nat, p: Research.Progress, plan: Answers, verdict: Answers)
    returns (p': Research.Progress)
    ensures p' == Round(env, hasMessage, iteration, p, plan, verdict)
  {
    hide FromPendingTools, FilteredTo, IsFallbackPlan, Judge, Research.RunLayers;
    var layers;
    if !env.useLlm || !hasMessage || plan.planReply.None? { layers := PlanPendingTools(p.pending); }
    else { layers := FilteredTo(plan.planReply.value, p.pending); }
    var made, context := Research.ExecutePlan(env, iteration, layers, p.trace.calls, p.trace.context);
    var t := Trace(context, p.trace.calls + made);
    assert Fresh(p.trace, t) == made;
    var v := Critic.Run(env, made, verdict.hits, verdict.criticReply);
    var pending := p.pending - Research.Succeeded(made);
    var replans := p.replans;
    if !v.resolved {
      replans := replans + 1;
      pending := Elements(v.failedTools) + pending;
    }
    p' := Research.Progress(pending, t, replans);
  }

  // ---- one iteration against one cycle of the graph ----

  /** The pending tools that succeeded without a usable result and that the verdict does not blame: the loop forgets them,
      production keeps them. */
  function Lost(env: Env, pending: set<string>, results: seq<Record>, v: CriticOutput): set<string> {
    pending * (Research.Succeeded(results) - UsableTools(env, results)) - (if v.resolved then {} else Elements(v.failedTools))
  }

  lemma UpdatesDifferByLost(env: Env, pending: set<string>, results: seq<Record>, v: CriticOutput)
    requires forall r :: env.usable(r) ==> r.success
    ensures Remaining(env, pending, results, v) == Update(pending, results, v) + Lost(env, pending, results, v)
    ensures Update(pending, results, v) !! Lost(env, pending, results, v)
  {
    assert UsableTools(env, results) <= Research.Succeeded(results);
  }

  lemma {:induction false} OfIterationSplit(before: seq<Record>, made: seq<Record>, iteration: nat)
    requires forall r :: r in before ==> r.iteration < iteration
    requires forall r :: r in made ==> r.iteration == iteration
    ensures OfIteration(before + made, iteration) == made
  {
    if before == [] {
      assert before + made == made;
      OfIterationAll(made, iteration);
    } else {
      assert before[0] in before && (before + made)[1..] == before[1..] + made;
      OfIterationSplit(before[1..], made, iteration);
    }
  }

  lemma {:induction false} OfIterationAll(made: seq<Record>, iteration: nat)
    requires forall r :: r in made ==> r.iteration == iteration
    ensures OfIteration(made, iteration) == made
  {
    if made != [] {
      assert made[0] in made;
      OfIterationAll(made[1..], iteration);
    }
  }

  predicate RaceFree(layers: Layers) {
    forall k :: 0 <= k < |layers| ==> NoRace(layers[k])
  }

  /** Production's executor step makes the loop's calls. */
  lemma ExecutionAgrees(env: Env, s: State, p: Research.Progress, plan: Answers) returns (m: State)
    requires Matches(s, p) && RaceFree(Plan(env, s, plan))
    ensures m == ExecutorNode(env, PlannerNode(env, s, plan))
    ensures var t := Research.RunLayers(env, s.iteration + 1, PlanFor(env, s.hasMessage, p.pending, plan), p.trace);
            && Trace(m.context, m.calls) == t && OfIteration(m.calls, m.iteration) == Fresh(p.trace, t)
            && Dated(m.calls, m.iteration)
    ensures m.iteration == s.iteration + 1 && m.pending == s.pending && m.replans == s.replans && m.expected == s.expected
    ensures m.hasMessage == s.hasMessage
  {
    hide FromPendingTools, FilteredTo, NoRace, ExecTools, Research.RunLayers, OfIteration;
    var it := s.iteration + 1;
    var layers := Plan(env, s, plan);
    assert layers == PlanFor(env, s.hasMessage, p.pending, plan);
    PlanAgrees(env, it, layers, p.trace);
    ExecToolsExtends(env, it, Flatten(layers), p.trace);
    m := ExecutorNode(env, PlannerNode(env, s, plan));
    var t := ExecTools(env, it, Flatten(layers), p.trace);
    assert t.calls == p.trace.calls + Fresh(p.trace, t);
    OfIterationSplit(p.trace.calls, Fresh(p.trace, t), it);
    CallsSplit(p.trace, t);
  }

  /** The tools lost in the iteration that production is about to make. */
  function LostIn(env: Env, s: State, plan: Answers, verdict: Answers): set<string> {
    var m := ExecutorNode(env, PlannerNode(env, s, plan));
    var results := OfIteration(m.calls, m.iteration);
    Lost(env, Elements(s.pending), results, Judge(env, results, verdict.hits, verdict.criticReply))
  }

  /** On a plan without a racing layer both make the same calls and count the same replans, and production's pending set is
      the loop's and the lost tools. */
  lemma RoundDiffersByLost(env: Env, s: State, p: Research.Progress, plan: Answers, verdict: Answers)
    requires forall r :: env.usable(r) ==> r.success
    requires Matches(s, p) && RaceFree(Plan(env, s, plan))
    ensures var s' := Cycle(env, s, plan, verdict);
            var p' := Round(env, s.hasMessage, s.iteration + 1, p, plan, verdict);
            && Trace(s'.context, s'.calls) == p'.trace && s'.replans == p'.replans && Dated(s'.calls, s'.iteration)
            && s'.iteration == s.iteration + 1 && s'.expected == s.expected && s'.hasMessage == s.hasMessage
            && Elements(s'.pending) == p'.pending + LostIn(env, s, plan, verdict)
            && p'.pending !! LostIn(env, s, plan, verdict)
  {
    hide Plan, PlannerNode, ExecutorNode, Judge, Research.RunLayers, OfIteration, PlanFor, Update, Lost, Remaining, RaceFree;
    var m := ExecutionAgrees(env, s, p, plan);
    var results := OfIteration(m.calls, m.iteration);
    UpdatesDifferByLost(env, Elements(s.pending), results, Judge(env, results, verdict.hits, verdict.criticReply));
  }

  // ---- whole runs ----

  /** No plan of the run has a racing layer. */
  predicate RunRaceFree(env: Env, s: State, answers: seq<Answers>)
    decreases |answers|
  {
    |answers| >= 3 ==>
      var s' := Cycle(env, s, answers[0], answers[2]);
      RaceFree(Plan(env, s, answers[0])) && (RouteAfterCritic(s') == Planner ==> RunRaceFree(env, s', answers[3..]))
  }

  /** No iteration of the run loses a tool. */
  predicate NothingLost(env: Env, s: State, answers: seq<Answers>)
    decreases |answers|
  {
    |answers| >= 3 ==>
      var s' := Cycle(env, s, answers[0], answers[2]);
      LostIn(env, s, answers[0], answers[2]) == {} && (RouteAfterCritic(s') == Planner ==> NothingLost(env, s', answers[3..]))
  }

  /** Graph and loop agree on the pending tools after every iteration. */
  predicate InStep(env: Env, s: State, p: Research.Progress, answers: seq<Answers>)
    decreases |answers|
  {
    |answers| >= 3 ==>
      var s' := Cycle(env, s, answers[0], answers[2]);
      var p' := Round(env, s.hasMessage, s.iteration + 1, p, answers[0], answers[2]);
      Elements(s'.pending) == p'.pending && (RouteAfterCritic(s') == Planner ==> InStep(env, s', p', answers[3..]))
  }

  lemma RoundInStep(env: Env, s: State, p: Research.Progress, plan: Answers, verdict: Answers)
    requires forall r :: env.usable(r) ==> r.success
    requires Matches(s, p) && RaceFree(Plan(env, s, plan))
    ensures var s' := Cycle(env, s, plan, verdict);
            var p' := Round(env, s.hasMessage, s.iteration + 1, p, plan, verdict);
            && (Elements(s'.pending) == p'.pending <==> LostIn(env, s, plan, verdict) == {})
            && (LostIn(env, s, plan, verdict) == {} ==> Matches(s', p'))
            && s'.iteration == s.iteration + 1 && s'.expected == s.expected && s'.hasMessage == s.hasMessage
  {
    hide Cycle, Round, LostIn, RaceFree, Plan, Dated;
    RoundDiffersByLost(env, s, p, plan, verdict);
    SameIfNothingExtra(Round(env, s.hasMessage, s.iteration + 1, p, plan, verdict).pending, LostIn(env, s, plan, verdict));
  }

  lemma SameIfNothingExtra(a: set<string>, b: set<string>)
    requires a !! b
    ensures a + b == a <==> b == {}
  {
    if b != {} {
      var x :| x in b;
      assert x in a + b && x !in a;
    }
  }

  lemma OneMoreRound(env: Env, s: State, p: Research.Progress, answers: seq<Answers>)
    requires |answers| >= 3
    ensures var s' := Cycle(env, s, answers[0], answers[2]);
            var p' := Round(env, s.hasMessage, s.iteration + 1, p, answers[0], answers[2]);
            var on := RouteAfterCritic(s') == Planner;
            && (InStep(env, s, p, answers) <==> Elements(s'.pending) == p'.pending && (on ==> InStep(env, s', p', answers[3..])))
            && (NothingLost(env, s, answers) <==>
                  LostIn(env, s, answers[0], answers[2]) == {} && (on ==> NothingLost(env, s', answers[3..])))
            && (RunRaceFree(env, s, answers) <==>
                  RaceFree(Plan(env, s, answers[0])) && (on ==> RunRaceFree(env, s', answers[3..])))
  {
    hide Cycle, Round, LostIn, RaceFree, RouteAfterCritic, Plan;
  }

  lemma {:induction false} InStepIffNothingLost(env: Env, s: State, p: Research.Progress, answers: seq<Answers>)
    requires forall r :: env.usable(r) ==> r.success
    requires Matches(s, p) && RunRaceFree(env, s, answers)
    ensures InStep(env, s, p, answers) <==> NothingLost(env, s, answers)
    decreases |answers|
  {
    if |answers| >= 3 {
      hide Cycle, Round, LostIn, RaceFree, RouteAfterCritic, Matches, Plan, InStep, NothingLost, RunRaceFree;
      var s' := Cycle(env, s, answers[0], answers[2]);
      var p' := Round(env, s.hasMessage, s.iteration + 1, p, answers[0], answers[2]);
      OneMoreRound(env, s, p, answers);
      RoundInStep(env, s, p, answers[0], answers[2]);
      if LostIn(env, s, answers[0], answers[2]) == {} && RouteAfterCritic(s') == Planner {
        InStepIffNothingLost(env, s', p', answers[3..]);
      }
    }
  }

  lemma {:induction false} RunInStep(env: Env, s: State, p: Research.Progress, answers: seq<Answers>)
    requires forall r :: env.usable(r) ==> r.success
    requires Matches(s, p) && s.iteration < MAX_ITERATIONS && |answers| >= 3 * (MAX_ITERATIONS - s.iteration)
    requires RunRaceFree(env, s, answers) && NothingLost(env, s, answers)
    ensures var f := RunFrom(env, Config(Planner, s), answers).s;
            var o := Rounds(env, s.hasMessage, Elements(s.expected), s.iteration + 1, p, answers);
            && Trace(f.context, f.calls) == o.progress.trace && Elements(f.pending) == o.progress.pending
            && f.replans == o.progress.replans && f.iteration == o.steps && f.expected == s.expected
    decreases |answers|
  {
    hide Cycle, Step, Round, LostIn, RaceFree, Plan;
    var s' := Cycle(env, s, answers[0], answers[2]);
    AfterCycle(env, s, answers);
    RoundInStep(env, s, p, answers[0], answers[2]);
    EmptyElements(s'.pending);
    if RouteAfterCritic(s') == Planner {
      RunInStep(env, s', Round(env, s.hasMessage, s.iteration + 1, p, answers[0], answers[2]), answers[3..]);
    } else {
      TailKeepsWork(env, Config(Response, s'), answers[3..]);
    }
  }

  lemma {:induction false} OutcomeIsChecked(env: Env, hasMessage: bool, expected: set<string>, iteration: nat,
                                            p: Research.Progress, answers: seq<Answers>)
    requires iteration <= Research.MAX_ROUNDS && |answers| >= 3 * (Research.MAX_ROUNDS + 1 - iteration)
    ensures var o := Rounds(env, hasMessage, expected, iteration, p, answers);
            o.resolved <==> Research.AllUsable(env, expected, o.progress.trace.calls)
    decreases Research.MAX_ROUNDS - iteration
  {
    hide Round;
    var p' := Round(env, hasMessage, iteration, p, answers[0], answers[2]);
    if p'.pending != {} && iteration < Research.MAX_ROUNDS {
      OutcomeIsChecked(env, hasMessage, expected, iteration + 1, p', answers[3..]);
    }
  }

  /** With any LLM answers, given to both alike, on plans without a racing layer: the graph and the loop agree on the
      pending tools after every iteration exactly if no iteration loses a tool, and then they make the same calls, with the
      same context, pending set, iteration and replan counts and verdict. */
  lemma ProductionSimulatesMemoryLoop(env: Env, ticketId: string, hasMessage: bool, intent: string, context: Dict,
                                      expected: seq<string>, answers: seq<Answers>)
    requires |answers| >= 12 && forall r :: env.usable(r) ==> r.success
    requires RunRaceFree(env, Start(ticketId, hasMessage, intent, context, expected).s, answers)
    ensures var s := Start(ticketId, hasMessage, intent, context, expected).s;
            var p := Research.Progress(Elements(expected), Trace(context, []), 0);
            && (InStep(env, s, p, answers) <==> NothingLost(env, s, answers))
            && (NothingLost(env, s, answers) ==>
                  var f := RunFrom(env, Config(Planner, s), answers).s;
                  var o := Rounds(env, hasMessage, Elements(expected), 1, p, answers);
                  && f.calls == o.progress.trace.calls && f.context == o.progress.trace.context
                  && Elements(f.pending) == o.progress.pending
                  && f.iteration == o.steps && f.replans == o.progress.replans && f.resolved == o.resolved)
  {
    hide RunFrom, Rounds, InStep, NothingLost, RunRaceFree;
    var s := Start(ticketId, hasMessage, intent, context, expected).s;
    var p := Research.Progress(Elements(expected), Trace(context, []), 0);
    InStepIffNothingLost(env, s, p, answers);
    if NothingLost(env, s, answers) {
      RunInStep(env, s, p, answers);
      OutcomeIsChecked(env, hasMessage, Elements(expected), 1, p, answers);
      EveryRunEnds(env, ticketId, hasMessage, intent, context, expected, answers);
      assert forall t :: t in expected <==> t in Elements(expected);
    }
  }

  // ---- a lost tool ----

  /** A knowledge base that answers without a result count. */
  const VAGUE: (seq<Record>, string, Dict) -> ToolResult :=
    (log: seq<Record>, tool: string, params: Dict) => ToolResult(true, Some(map["query" := Str("")]), None, None)

  const NO_NUMERAL: string -> Option<real> := s => None

  function Vague(): Env {
    Provenance.Production(true, VAGUE, NO_NUMERAL)
  }

  lemma VagueIsUnusable(iteration: nat, t: Trace)
    ensures var r := Dispatch(Vague(), iteration, "kb_search", t); r.tool == "kb_search" && r.success && !Vague().usable(r)
    ensures forall r :: Vague().usable(r) ==> r.success
  {
    var d: Dict := map["query" := Str("")];
    assert |"query"| == 5 && |"result_count"| == 12;
    assert Get(d, "result_count") == Null;
  }

  lemma KbPlan()
    ensures FromPendingTools({"kb_search"}) == [["kb_search"]]
  {
    var plan := FromPendingTools({"kb_search"});
    FallbackIsPlan({"kb_search"});
    assert ["kb_search"][0] == "kb_search";
    SingletonPlan();
    FallbackIsUnique(plan, [["kb_search"]], {"kb_search"}, -1);
  }

  lemma SingletonPlan()
    ensures IsFallbackPlan([["kb_search"]], {"kb_search"})
  {
    assert ["kb_search"][0] == "kb_search" && ToolLayer("kb_search") == 1;
    assert [["kb_search"]][1..] == [];
    assert IsPlanAbove([], {"kb_search"}, 1);
  }

  lemma KbRuns(t: Trace)
    ensures var r := Dispatch(Vague(), 1, "kb_search", t);
            Research.RunLayers(Vague(), 1, [["kb_search"]], t) == Append(Vague(), t, r)
  {
    hide Dispatch, Append, Vague;
    var env, r := Vague(), Dispatch(Vague(), 1, "kb_search", t);
    assert DependenciesOf("kb_search") == {};
    assert ["kb_search"][1..] == [] && [["kb_search"]][1..] == [];
    var t1 := Append(env, t, r);
    assert Research.RunLayerTools(env, 1, t.calls, [], t1) == t1;
    assert Research.RunLayerTools(env, 1, t.calls, ["kb_search"], t) == t1;
    assert Research.RunLayers(env, 1, [], t1) == t1;
  }

  lemma OneBadResult(env: Env, r: Record)
    requires env.useLlm && r.success && !env.usable(r) && r.tool == "kb_search"
    ensures Judge(env, [r], [], Some(CriticReply(true, [], []))).resolved
    ensures Research.Succeeded([r]) == {"kb_search"} && UsableTools(env, [r]) == {}
  {
    assert r in [r];
    assert FailedIn(env, [r]) == {"kb_search"};
  }

  /** An LLM that calls a successful but unusable answer resolved: the loop drops the tool and stops unresolved after one
      iteration, production keeps it and plans again. */
  lemma LoopLosesATool(context: Dict, plan: Answers, verdict: Answers)
    requires plan.planReply.None? && verdict.criticReply == Some(CriticReply(true, [], [])) && verdict.hits == []
    ensures var s := Start("", true, "", context, ["kb_search"]).s;
            var s' := Cycle(Vague(), s, plan, verdict);
            var p' := Round(Vague(), true, 1, Research.Progress({"kb_search"}, Trace(context, []), 0), plan, verdict);
            && Provenance.IsProduction(Vague())
            && Elements(s'.pending) == {"kb_search"} && s'.iteration < MAX_ITERATIONS
            && p'.pending == {} && !Research.AllUsable(Vague(), {"kb_search"}, p'.trace.calls)
  {
    hide Cycle, Judge, FromPendingTools, Vague, Dispatch, UsableTools, Research.Succeeded, Research.RunLayers, RaceFree, ExecutorNode;
    var env, t := Vague(), Trace(context, []);
    var s := Start("", true, "", context, ["kb_search"]).s;
    var p := Research.Progress({"kb_search"}, t, 0);
    var r := Dispatch(env, 1, "kb_search", t);
    VagueIsProduction();
    VagueIsUnusable(1, t);
    KbPlan();
    KbRuns(t);
    OneBadResult(env, r);
    assert Elements(s.pending) == {"kb_search"};
    assert Matches(s, p);
    KbPlanIsRaceFree();
    assert Plan(env, s, plan) == [["kb_search"]];
    RoundDiffersByLost(env, s, p, plan, verdict);
    var m := ExecutionAgrees(env, s, p, plan);
    assert Fresh(t, Append(env, t, r)) == [r];
    assert LostIn(env, s, plan, verdict) == {"kb_search"};
    assert [] + [r] == [r];
  }

  lemma VagueIsProduction()
    ensures Provenance.IsProduction(Vague()) && Vague().useLlm
  {
    Provenance.ProductionIsProduction(true, VAGUE, NO_NUMERAL);
  }

  lemma KbPlanIsRaceFree()
    ensures RaceFree([["kb_search"]])
  {
  }
}
