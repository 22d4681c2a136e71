/** The compiled graph (src/graph/pipeline.py) as a loop over its nodes, each node running its imperative agent. */
module Graph {
  import opened Values
  import opened Records
  import opened Ordering
  import opened Dag
  import opened Pipeline
  import opened Safety
  import Executor
  import Critic

  lemma {:induction false} EndIsFinal(env: Executor.Env, c: Config, answers: seq<Answers>)
    requires c.node == End
    ensures RunFrom(env, c, answers) == c
    decreases |answers|
  {
    if answers != [] { EndIsFinal(env, c, answers[1..]); }
  }

  lemma RunFromStep(env: Executor.Env, c: Config, answers: seq<Answers>, k: nat)
    requires k < |answers|
    ensures RunFrom(env, c, answers[k..]) == RunFrom(env, Step(env, c, answers[k]), answers[k + 1..])
  {
    assert answers[k..][1..] == answers[k + 1..];
  }

  method PlanNode(env: Executor.Env, s: State, a: Answers) returns (s': State)
    ensures s' == PlannerNode(env, s, a)
  {
    hide FromPendingTools, FilteredTo, IsFallbackPlan;
    var pending := Elements(s.pending);
    var plan;
    if !env.useLlm || !s.hasMessage || a.planReply.None? {
      plan := PlanPendingTools(pending);
    } else {
      plan := FilteredTo(a.planReply.value, pending);
    }
    s' := s.(dag := plan, memoryHit := s.memoryHit || a.templates, distance := a.distance, iteration := s.iteration + 1);
  }

  method ExecNode(env: Executor.Env, s: State) returns (s': State)
    ensures s' == ExecutorNode(env, s)
  {
    var made, context := Executor.Run(env, s.iteration, s.dag, s.calls, s.context);
    s' := s.(context := context, calls := s.calls + made);
  }

  method JudgeNode(env: Executor.Env, s: State, a: Answers) returns (s': State)
    ensures s' == CriticNode(env, s, a)
  {
    var results := OfIteration(s.calls, s.iteration);
    var v := Critic.Run(env, results, a.hits, a.criticReply);
    s' := ApplyVerdict(env, s, results, v);
  }

  /** One node and the edge out of it. */
  method RunNode(env: Executor.Env, c: Config, a: Answers) returns (c': Config)
    ensures c' == Step(env, c, a)
  {
    match c.node
    case Planner => var s := PlanNode(env, c.s, a); c' := Config(Executing, s);
    case Executing => var s := ExecNode(env, c.s); c' := Config(Judging, s);
    case Judging => var s := JudgeNode(env, c.s, a); c' := Config(RouteAfterCritic(s), s);
    case Response =>
      var resolved := CheckResolved(env, c.s.expected, c.s.calls);
      c' := Config(if resolved then WriteMemory else Escalation, c.s.(resolved := resolved));
    case Escalation => c' := Config(WriteMemory, c.s.(escalate := !c.s.resolved));
    case WriteMemory => var w := WriteBack(env, c.s); c' := Config(End, c.s.(writes := c.s.writes + w));
    case End => c' := c;
  }

  /** `app.invoke`: nodes are run until the end, which comes within the step bound. */
  method Invoke(env: Executor.Env, start: Config, answers: seq<Answers>) returns (final: Config)
    requires Safe(env, start) && StepsLeft(start) <= |answers|
    ensures final.node == End
    ensures final == RunFrom(env, start, answers)
  {
    final := start;
    var k := 0;
    assert answers[0..] == answers;
    while final.node != End
      invariant Safe(env, final)
      invariant 0 <= k && k + StepsLeft(final) <= |answers|
      invariant RunFrom(env, start, answers) == RunFrom(env, final, answers[k..])
      decreases StepsLeft(final)
    {
      RunFromStep(env, final, answers, k);
      StepKeepsSafe(env, final, answers[k]);
      StepDescends(env, final, answers[k]);
      final := RunNode(env, final, answers[k]);
      k := k + 1;
    }
    EndIsFinal(env, final, answers[k..]);
  }
}
