/** With the LLM off, memory never influences what a ticket does. */
module NonInterference {
  import opened Values
  import opened Records
  import opened Ordering
  import opened Dag
  import opened Executor
  import opened Critic
  import opened Pipeline

  /** A memory write without the parts read back from memory. */
  function EraseWrite(w: MemoryWrite): MemoryWrite {
    match w
    case ToolFailure(tool, category, _, _) => ToolFailure(tool, category, "", 0.0)
    case _ => w
  }

  function EraseWrites(ws: seq<MemoryWrite>): (r: seq<MemoryWrite>) {
    if ws == [] then [] else [EraseWrite(ws[0])] + EraseWrites(ws[1..])
  }

  /** A state without the fields memory may influence: the hit flag, the confidence, the recovery strategy and the
      retrieval distance. */
  function Erase(s: State): State {
    s.(memoryHit := false, confidence := 0.0, strategy := "", distance := None, writes := EraseWrites(s.writes))
  }

  function EraseConfig(c: Config): Config {
    Config(c.node, Erase(c.s))
  }

  lemma {:induction false} EraseWritesAppend(a: seq<MemoryWrite>, b: seq<MemoryWrite>)
    ensures EraseWrites(a + b) == EraseWrites(a) + EraseWrites(b)
  {
    if a == [] {
      assert a + b == b;
    } else {
      EraseWritesAppend(a[1..], b);
      assert (a + b)[1..] == a[1..] + b;
      ConcatAssociates([EraseWrite(a[0])], EraseWrites(a[1..]), EraseWrites(b));
    }
  }

  /** The verdict's effects on the run do not depend on the retrieved entries. */
  lemma VerdictIgnoresMemory(env: Env, results: seq<Record>, a: Answers, b: Answers)
    requires !env.useLlm
    ensures var v, w := Judge(env, results, a.hits, a.criticReply), Judge(env, results, b.hits, b.criticReply);
            v.resolved == w.resolved && v.failedTools == w.failedTools && v.category == w.category
  {
  }

  predicate SameCore(s: State, t: State) {
    && s.ticketId == t.ticketId && s.hasMessage == t.hasMessage && s.intent == t.intent
    && s.context == t.context && s.pending == t.pending && s.expected == t.expected
    && s.dag == t.dag && s.calls == t.calls && s.iteration == t.iteration
    && s.resolved == t.resolved && s.replans == t.replans && s.category == t.category && s.escalate == t.escalate
  }

  lemma EraseIsCore(s: State, t: State)
    ensures Erase(s) == Erase(t) <==> SameCore(s, t) && EraseWrites(s.writes) == EraseWrites(t.writes)
  {
  }

  lemma {:induction false} FailureWritesIgnoreMemory(env: Env, calls: seq<Record>, s: State, t: State)
    requires s.category == t.category
    ensures EraseWrites(FailureWrites(env, calls, s)) == EraseWrites(FailureWrites(env, calls, t))
  {
    if calls != [] {
      FailureWritesIgnoreMemory(env, calls[1..], s, t);
      if !env.usable(calls[0]) {
        var f, g := FailureWrites(env, calls, s), FailureWrites(env, calls, t);
        assert f[1..] == FailureWrites(env, calls[1..], s) && g[1..] == FailureWrites(env, calls[1..], t);
        assert EraseWrite(f[0]) == EraseWrite(g[0]);
      }
    }
  }

  lemma FinalWritesIgnoreMemory(env: Env, s: State, t: State)
    requires SameCore(s, t)
    ensures EraseWrites(MemoryWrites(env, s)) == EraseWrites(MemoryWrites(env, t))
  {
    if !s.resolved {
      FailureWritesIgnoreMemory(env, s.calls, s, t);
      var e := [Episode(s.ticketId, s.intent, s.dag, s.resolved)];
      EraseWritesAppend(e, FailureWrites(env, s.calls, s));
      EraseWritesAppend(e, FailureWrites(env, t.calls, t));
    }
  }

  lemma VerdictKeepsCore(env: Env, s: State, t: State, results: seq<Record>, v: CriticOutput, w: CriticOutput)
    requires SameCore(s, t)
    requires v.resolved == w.resolved && v.failedTools == w.failedTools && v.category == w.category
    ensures SameCore(ApplyVerdict(env, s, results, v), ApplyVerdict(env, t, results, w))
  {
  }

  lemma CriticKeepsCore(env: Env, s: State, t: State, a: Answers, b: Answers)
    requires !env.useLlm && SameCore(s, t)
    ensures SameCore(CriticNode(env, s, a), CriticNode(env, t, b))
  {
    var results := OfIteration(s.calls, s.iteration);
    VerdictIgnoresMemory(env, results, a, b);
    VerdictKeepsCore(env, s, t, results, Judge(env, results, a.hits, a.criticReply), Judge(env, results, b.hits, b.criticReply));
  }

  /** Same node, same core, same writes up to erasure. */
  predicate Alike(c: Config, d: Config) {
    c.node == d.node && SameCore(c.s, d.s) && EraseWrites(c.s.writes) == EraseWrites(d.s.writes)
  }

  lemma CriticKeepsAlike(env: Env, c: Config, d: Config, a: Answers, b: Answers)
    requires !env.useLlm && Alike(c, d) && c.node == Judging
    ensures Alike(Step(env, c, a), Step(env, d, b))
  {
    CriticKeepsCore(env, c.s, d.s, a, b);
    var s, t := CriticNode(env, c.s, a), CriticNode(env, d.s, b);
    assert s.writes == c.s.writes && t.writes == d.s.writes;
    assert RouteAfterCritic(s) == RouteAfterCritic(t);
  }

  lemma WriteKeepsAlike(env: Env, c: Config, d: Config, a: Answers, b: Answers)
    requires Alike(c, d) && c.node == WriteMemory
    ensures Alike(Step(env, c, a), Step(env, d, b))
  {
    FinalWritesIgnoreMemory(env, c.s, d.s);
    EraseWritesAppend(c.s.writes, MemoryWrites(env, c.s));
    EraseWritesAppend(d.s.writes, MemoryWrites(env, d.s));
  }

  lemma StepKeepsAlike(env: Env, c: Config, d: Config, a: Answers, b: Answers)
    requires !env.useLlm && Alike(c, d)
    ensures Alike(Step(env, c, a), Step(env, d, b))
  {
    match c.node
    case Judging => CriticKeepsAlike(env, c, d, a, b);
    case WriteMemory => WriteKeepsAlike(env, c, d, a, b);
    case _ =>
  }

  lemma {:induction false} RunKeepsAlike(env: Env, c: Config, d: Config, a: seq<Answers>, b: seq<Answers>)
    requires !env.useLlm && Alike(c, d) && |a| == |b|
    ensures Alike(RunFrom(env, c, a), RunFrom(env, d, b))
    decreases |a|
  {
    if a != [] {
      StepKeepsAlike(env, c, d, a[0], b[0]);
      RunKeepsAlike(env, Step(env, c, a[0]), Step(env, d, b[0]), a[1..], b[1..]);
    }
  }

  /** Two runs of a ticket on the same tools with the LLM off, with arbitrary different memory contents at every
      step: they agree, at every step, on the node, the call log, the context, the plan, the pending tools, the
      counters, the verdict, the escalation, the failure category and what is written back, up to the strategy and
      the confidence recorded in failure entries. */
  lemma MemoryDoesNotInterfere(env: Env, c: Config, d: Config, a: seq<Answers>, b: seq<Answers>)
    requires !env.useLlm && EraseConfig(c) == EraseConfig(d) && |a| == |b|
    ensures EraseConfig(RunFrom(env, c, a)) == EraseConfig(RunFrom(env, d, b))
  {
    EraseIsCore(c.s, d.s);
    RunKeepsAlike(env, c, d, a, b);
    EraseIsCore(RunFrom(env, c, a).s, RunFrom(env, d, b).s);
  }

  // ---- which answers of the LLMs are heard ----

  /** The answers agree on memory, and on what the LLMs say as far as they are asked: the critic's only when the LLM is
      on, the planner's only when the ticket also has a message. */
  predicate SameHeard(env: Env, hasMessage: bool, a: Answers, b: Answers) {
    && a.templates == b.templates && a.distance == b.distance && a.hits == b.hits
    && (env.useLlm ==> a.criticReply == b.criticReply)
    && (env.useLlm && hasMessage ==> a.planReply == b.planReply)
  }

  lemma StepHears(env: Env, c: Config, a: Answers, b: Answers)
    requires SameHeard(env, c.s.hasMessage, a, b)
    ensures Step(env, c, a) == Step(env, c, b) && Step(env, c, a).s.hasMessage == c.s.hasMessage
  {
    hide FromPendingTools, ExecTools, Remaining, MemoryWrites, ClassifyFailure, OfIteration;
  }

  /** Nothing else the LLMs might have said makes a difference to a run. */
  lemma {:induction false} OnlyTheHeardCounts(env: Env, c: Config, a: seq<Answers>, b: seq<Answers>)
    requires |a| == |b| && forall i :: 0 <= i < |a| ==> SameHeard(env, c.s.hasMessage, a[i], b[i])
    ensures RunFrom(env, c, a) == RunFrom(env, c, b)
    decreases |a|
  {
    hide Step, SameHeard;
    if a != [] {
      StepHears(env, c, a[0], b[0]);
      OnlyTheHeardCounts(env, Step(env, c, a[0]), a[1..], b[1..]);
    }
  }
}
