/** What every run of the pipeline keeps, for any planner LLM, any critic LLM, any memory and any tools. */
module Safety {
  import opened Values
  import opened Records
  import opened Ordering
  import opened Dag
  import opened Executor
  import opened Critic
  import opened Pipeline

  /** No call precedes a usable call of a tool it depends on; for a refund, a usable order_lookup. */
  predicate DependencySafe(env: Env, calls: seq<Record>) {
    forall i :: 0 <= i < |calls| ==> DependenciesOf(calls[i].tool) <= UsableTools(env, calls[..i])
  }

  /** Every expected tool is still pending or already usable. */
  predicate Accounted(env: Env, expected: seq<string>, pending: seq<string>, calls: seq<Record>) {
    forall t :: t in expected ==> t in pending || t in UsableTools(env, calls)
  }

  predicate Finished(n: Node) {
    n == Response || n == Escalation || n == WriteMemory || n == End
  }

  predicate Dated(calls: seq<Record>, bound: int) {
    forall r :: r in calls ==> r.iteration <= bound
  }

  /** The verdict and escalation fields, node by node. */
  predicate VerdictSafe(env: Env, c: Config) {
    match c.node
    case Escalation => !c.s.escalate && !c.s.resolved && !Resolved(env, c.s.expected, c.s.calls)
    case WriteMemory => c.s.escalate == !c.s.resolved && c.s.resolved == Resolved(env, c.s.expected, c.s.calls)
    case End => c.s.escalate == !c.s.resolved && c.s.resolved == Resolved(env, c.s.expected, c.s.calls)
    case _ => !c.s.escalate
  }

  predicate IterationSafe(c: Config) {
    && (if c.node == Planner then c.s.iteration < MAX_ITERATIONS else 1 <= c.s.iteration <= MAX_ITERATIONS)
    && (Finished(c.node) ==> c.s.pending == [] || c.s.iteration == MAX_ITERATIONS)
  }

  predicate Safe(env: Env, c: Config) {
    && Accounted(env, c.s.expected, c.s.pending, c.s.calls)
    && DependencySafe(env, c.s.calls)
    && Dated(c.s.calls, if c.node == Executing then c.s.iteration - 1 else c.s.iteration)
    && IterationSafe(c)
    && VerdictSafe(env, c)
  }

  lemma StartIsSafe(env: Env, ticketId: string, hasMessage: bool, intent: string, context: Dict, expected: seq<string>)
    ensures Safe(env, Start(ticketId, hasMessage, intent, context, expected))
  {
  }

  lemma {:induction false} ExecToolsDependencySafe(env: Env, iteration: nat, tools: seq<string>, t: Trace)
    requires DependencySafe(env, t.calls)
    ensures DependencySafe(env, ExecTools(env, iteration, tools, t).calls)
  {
    if tools != [] {
      var t1 := ExecTool(env, iteration, tools[0], t);
      if t1 != t {
        assert t1.calls[..|t.calls|] == t.calls;
        forall i | 0 <= i < |t1.calls| ensures DependenciesOf(t1.calls[i].tool) <= UsableTools(env, t1.calls[..i]) {
          if i < |t.calls| { assert t1.calls[..i] == t.calls[..i]; }
        }
      }
      ExecToolsDependencySafe(env, iteration, tools[1..], t1);
    }
  }

  lemma UsableToolsMonotone(env: Env, small: seq<Record>, large: seq<Record>)
    requires |small| <= |large| && small == large[..|small|]
    ensures UsableTools(env, small) <= UsableTools(env, large)
  {
    forall c | c in small ensures c in large {
      var i :| 0 <= i < |small| && small[i] == c;
      assert large[i] == c;
    }
  }

  lemma CallsSplit(t: Trace, t': Trace)
    requires |t.calls| <= |t'.calls| && t.calls == t'.calls[..|t.calls|]
    ensures forall r :: r in t'.calls <==> r in t.calls || r in Fresh(t, t')
  {
    assert t'.calls == t.calls + Fresh(t, t');
  }

  lemma ExecutorKeepsSafe(env: Env, c: Config, a: Answers)
    requires Safe(env, c) && c.node == Executing
    ensures Safe(env, Step(env, c, a))
  {
    var t := Trace(c.s.context, c.s.calls);
    var t' := ExecTools(env, c.s.iteration, Flatten(c.s.dag), t);
    ExecToolsExtends(env, c.s.iteration, Flatten(c.s.dag), t);
    ExecToolsDependencySafe(env, c.s.iteration, Flatten(c.s.dag), t);
    UsableToolsMonotone(env, t.calls, t'.calls);
    CallsSplit(t, t');
  }

  /** Whatever the verdict, a tool leaves the pending set only with a usable call behind it. */
  lemma RemainingForgetsNothing(env: Env, pending: set<string>, results: seq<Record>, v: CriticOutput)
    ensures pending <= Remaining(env, pending, results, v) + UsableTools(env, results)
  {
  }

  lemma CriticForgetsNothing(env: Env, s: State, results: seq<Record>, v: CriticOutput)
    requires Accounted(env, s.expected, s.pending, s.calls) && forall r :: r in results ==> r in s.calls
    ensures Accounted(env, s.expected, ApplyVerdict(env, s, results, v).pending, s.calls)
  {
    RemainingForgetsNothing(env, Elements(s.pending), results, v);
    assert UsableTools(env, results) <= UsableTools(env, s.calls);
    var s' := ApplyVerdict(env, s, results, v);
    forall t | t in s.expected ensures t in s'.pending || t in UsableTools(env, s.calls) {
      if t in s.pending { assert t in Elements(s.pending); }
    }
  }

  lemma CriticKeepsSafe(env: Env, c: Config, a: Answers)
    requires Safe(env, c) && c.node == Judging
    ensures Safe(env, Step(env, c, a))
  {
    hide Judge, Resolved, DependencySafe, Accounted, UsableTools;
    var results := OfIteration(c.s.calls, c.s.iteration);
    CriticForgetsNothing(env, c.s, results, Judge(env, results, a.hits, a.criticReply));
  }

  lemma StepKeepsSafe(env: Env, c: Config, a: Answers)
    requires Safe(env, c)
    ensures Safe(env, Step(env, c, a))
  {
    match c.node
    case Executing => ExecutorKeepsSafe(env, c, a);
    case Judging => CriticKeepsSafe(env, c, a);
    case _ =>
  }

  /** A bound on the steps a run still has to take. */
  function StepsLeft(c: Config): nat {
    var rounds := if c.s.iteration <= MAX_ITERATIONS then 3 * (MAX_ITERATIONS - c.s.iteration) else 0;
    match c.node
    case Planner => 3 + rounds
    case Executing => 5 + rounds
    case Judging => 4 + rounds
    case Response => 3
    case Escalation => 2
    case WriteMemory => 1
    case End => 0
  }

  lemma StepDescends(env: Env, c: Config, a: Answers)
    requires IterationSafe(c) && c.node != End
    ensures StepsLeft(Step(env, c, a)) < StepsLeft(c)
  {
    hide Judge, Plan, MemoryWrites, Remaining, ExecTools;
    match c.node
    case Planner => assert PlannerNode(env, c.s, a).iteration == c.s.iteration + 1;
    case Executing => assert ExecutorNode(env, c.s).iteration == c.s.iteration;
    case Judging => assert CriticNode(env, c.s, a).iteration == c.s.iteration;
    case _ =>
  }

  lemma {:induction false} RunIsSafe(env: Env, c: Config, answers: seq<Answers>)
    requires Safe(env, c)
    ensures Safe(env, RunFrom(env, c, answers))
    ensures StepsLeft(c) <= |answers| ==> RunFrom(env, c, answers).node == End
    ensures RunFrom(env, c, answers).s.expected == c.s.expected
    decreases |answers|
  {
    if answers != [] {
      StepKeepsSafe(env, c, answers[0]);
      if c.node != End { StepDescends(env, c, answers[0]); }
      RunIsSafe(env, Step(env, c, answers[0]), answers[1..]);
    }
  }

  /** Every ticket ends within twelve steps, whatever the LLMs, the memory and the tools answer. Its verdict is
      exactly whether every expected tool has a usable record; it is escalated exactly when unresolved; an
      unresolved ticket has used every iteration and still has a pending tool; and no pending tool means resolved. */
  lemma EveryRunEnds(env: Env, ticketId: string, hasMessage: bool, intent: string, context: Dict,
                     expected: seq<string>, answers: seq<Answers>)
    requires |answers| >= 12
    ensures var f := RunFrom(env, Start(ticketId, hasMessage, intent, context, expected), answers);
            && f.node == End
            && 1 <= f.s.iteration <= MAX_ITERATIONS
            && (f.s.resolved <==> Resolved(env, expected, f.s.calls))
            && (f.s.escalate <==> !f.s.resolved)
            && (f.s.pending == [] ==> f.s.resolved)
            && (!f.s.resolved ==> f.s.pending != [] && f.s.iteration == MAX_ITERATIONS)
  {
    var c := Start(ticketId, hasMessage, intent, context, expected);
    StartIsSafe(env, ticketId, hasMessage, intent, context, expected);
    RunIsSafe(env, c, answers);
  }

  /** In every reachable call log, each refund comes after a usable order_lookup. */
  lemma RefundsFollowLookups(env: Env, ticketId: string, hasMessage: bool, intent: string, context: Dict,
                             expected: seq<string>, answers: seq<Answers>, i: nat) returns (j: nat)
    requires i < |RunFrom(env, Start(ticketId, hasMessage, intent, context, expected), answers).s.calls|
    requires RunFrom(env, Start(ticketId, hasMessage, intent, context, expected), answers).s.calls[i].tool == "refund"
    ensures var calls := RunFrom(env, Start(ticketId, hasMessage, intent, context, expected), answers).s.calls;
            j < i && calls[j].tool == "order_lookup" && env.usable(calls[j])
  {
    hide RunFrom, Step;
    var c := Start(ticketId, hasMessage, intent, context, expected);
    var calls := RunFrom(env, c, answers).s.calls;
    StartIsSafe(env, ticketId, hasMessage, intent, context, expected);
    RunIsSafe(env, c, answers);
    assert "order_lookup" in UsableTools(env, calls[..i]);
    var r :| r in calls[..i] && env.usable(r) && r.tool == "order_lookup";
    j :| 0 <= j < i && calls[..i][j] == r;
  }
}
