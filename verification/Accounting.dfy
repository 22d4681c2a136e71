/** Exact accounting of a run with the LLM off: what is pending, what was dispatched, how often it replanned. */
module Accounting {
  import opened Values
  import opened Records
  import opened Ordering
  import opened Dag
  import opened Executor
  import opened Critic
  import opened Pipeline
  import opened Safety

  /** The tools made usable before the current iteration. */
  function UsableBefore(env: Env, calls: seq<Record>, iteration: nat): set<string> {
    set c | c in calls && c.iteration < iteration && env.usable(c) :: c.tool
  }

  /** Once a tool has a usable call, no later call goes to it. */
  predicate NoRepeat(env: Env, calls: seq<Record>) {
    forall i, j :: 0 <= i < j < |calls| && env.usable(calls[i]) ==> calls[i].tool != calls[j].tool
  }

  /** No iteration calls a tool twice. */
  predicate OncePerIteration(calls: seq<Record>) {
    forall i, j :: 0 <= i < j < |calls| && calls[i].iteration == calls[j].iteration ==> calls[i].tool != calls[j].tool
  }

  /** `rounds` times `tools`. */
  function Budget(rounds: nat, tools: nat): nat {
    if rounds == 0 then 0 else tools + Budget(rounds - 1, tools)
  }

  predicate ExactLog(env: Env, expected: seq<string>, calls: seq<Record>) {
    && NoRepeat(env, calls) && OncePerIteration(calls)
    && forall r :: r in calls ==> r.tool in expected
  }

  /** Between iterations: pending is what has no usable call yet. */
  predicate ExactBetween(env: Env, expected: seq<string>, pending: seq<string>, calls: seq<Record>) {
    Elements(pending) == Elements(expected) - UsableTools(env, calls)
  }

  /** Between executor and critic: pending has not been updated yet, and if nothing of a closed set failed all is
      done. */
  predicate ExactExecuted(env: Env, expected: seq<string>, pending: seq<string>, calls: seq<Record>, iteration: nat) {
    && Elements(pending) == Elements(expected) - UsableBefore(env, calls, iteration)
    && (forall r :: r in calls && r.iteration == iteration ==> r.tool in Elements(pending))
    && (Closed(Elements(expected)) && FailedIn(env, OfIteration(calls, iteration)) == {} ==>
          Elements(expected) <= UsableTools(env, calls))
  }

  /** The counters: calls so far against the budget, replans against iterations. */
  predicate Counted(c: Config) {
    var full := match c.node case Executing => c.s.iteration - 1 case _ => c.s.iteration;
    && full >= 0
    && |c.s.calls| <= Budget(full, |Elements(c.s.expected)|)
    && (Closed(Elements(c.s.expected)) ==>
          c.s.replans == match c.node
                         case Planner => c.s.iteration
                         case Executing => c.s.iteration - 1
                         case Judging => c.s.iteration - 1
                         case _ => if c.s.pending == [] then c.s.iteration - 1 else c.s.iteration)
  }

  predicate Exact(env: Env, c: Config) {
    && ExactLog(env, c.s.expected, c.s.calls)
    && Counted(c)
    && (if c.node == Judging then ExactExecuted(env, c.s.expected, c.s.pending, c.s.calls, c.s.iteration)
        else ExactBetween(env, c.s.expected, c.s.pending, c.s.calls))
    && (c.node == Executing ==> c.s.dag == FromPendingTools(Elements(c.s.pending)))
  }

  lemma SplitUsable(env: Env, calls: seq<Record>, iteration: nat)
    requires forall r :: r in calls ==> r.iteration <= iteration
    ensures UsableTools(env, calls) == UsableBefore(env, calls, iteration) + UsableTools(env, OfIteration(calls, iteration))
  {
  }

  /** With the LLM off the verdict is exactly "no failed tool", and it names exactly the failed tools. */
  lemma OfflineVerdict(env: Env, results: seq<Record>, hits: seq<FailureHit>, reply: Option<CriticReply>)
    requires !env.useLlm
    ensures var v := Judge(env, results, hits, reply);
            (v.resolved <==> FailedIn(env, results) == {}) && Elements(v.failedTools) == FailedIn(env, results)
  {
  }

  lemma PlannedIsExact(env: Env, c: Config)
    requires c.node == Executing && c.s.dag == FromPendingTools(Elements(c.s.pending))
    requires ExactLog(env, c.s.expected, c.s.calls) && Counted(c)
    requires ExactBetween(env, c.s.expected, c.s.pending, c.s.calls)
    ensures Exact(env, c)
  {
  }

  lemma PlannerKeepsExact(env: Env, c: Config, a: Answers)
    requires !env.useLlm && Exact(env, c) && c.node == Planner
    ensures Exact(env, Step(env, c, a))
  {
    var s' := PlannerNode(env, c.s, a);
    assert Plan(env, c.s, a) == FromPendingTools(Elements(c.s.pending));
    PlannedIsExact(env, Config(Executing, s'));
  }

  /** Pending tools are dispatched once each, and a flawless iteration completes a closed set. */
  lemma ExecutorRound(env: Env, iteration: nat, expected: set<string>, t: Trace)
    requires forall r :: r in t.calls ==> r.iteration < iteration
    ensures var pending := expected - UsableTools(env, t.calls);
            var t' := ExecTools(env, iteration, Flatten(FromPendingTools(pending)), t);
            && |t.calls| <= |t'.calls| <= |t.calls| + |pending|
            && t.calls == t'.calls[..|t.calls|]
            && (forall r :: r in Fresh(t, t') ==> r.iteration == iteration && r.tool in pending)
            && (forall i, j :: |t.calls| <= i < j < |t'.calls| ==> t'.calls[i].tool != t'.calls[j].tool)
            && (Closed(expected) && (forall r :: r in Fresh(t, t') ==> env.usable(r)) ==> expected <= UsableTools(env, t'.calls))
  {
    var pending := expected - UsableTools(env, t.calls);
    var order := Flatten(FromPendingTools(pending));
    var t' := ExecTools(env, iteration, order, t);
    FallbackCoversOnce(pending);
    ExecToolsExtends(env, iteration, order, t);
    ExecToolsDistinct(env, iteration, order, t);
    assert forall x :: x in order <==> x in Elements(order);
    if Closed(expected) && forall r :: r in Fresh(t, t') ==> env.usable(r) {
      FallbackIsGated(pending, UsableTools(env, t.calls));
      AllUsable(env, iteration, order, t);
    }
  }

  lemma ExecutorKeepsLists(env: Env, iteration: nat, expected: set<string>, t: Trace)
    requires NoRepeat(env, t.calls) && OncePerIteration(t.calls)
    requires forall r :: r in t.calls ==> r.iteration < iteration
    ensures var t' := ExecTools(env, iteration, Flatten(FromPendingTools(expected - UsableTools(env, t.calls))), t);
            NoRepeat(env, t'.calls) && OncePerIteration(t'.calls)
  {
    ExecutorRound(env, iteration, expected, t);
    var pending := expected - UsableTools(env, t.calls);
    var t' := ExecTools(env, iteration, Flatten(FromPendingTools(pending)), t);
    forall i, j | 0 <= i < j < |t'.calls|
      ensures env.usable(t'.calls[i]) ==> t'.calls[i].tool != t'.calls[j].tool
      ensures t'.calls[i].iteration == t'.calls[j].iteration ==> t'.calls[i].tool != t'.calls[j].tool
    {
      if i < |t.calls| {
        assert t'.calls[i] == t.calls[i];
        if j < |t.calls| {
          assert t'.calls[j] == t.calls[j];
        } else {
          assert t.calls[i] in t.calls && t'.calls[j] in Fresh(t, t');
        }
      }
    }
  }

  lemma FlawlessMeansUsable(env: Env, t: Trace, t': Trace, iteration: nat)
    requires |t.calls| <= |t'.calls| && forall r :: r in Fresh(t, t') ==> r.iteration == iteration
    requires FailedIn(env, OfIteration(t'.calls, iteration)) == {}
    ensures forall r :: r in Fresh(t, t') ==> env.usable(r)
  {
    var results := OfIteration(t'.calls, iteration);
    forall r | r in Fresh(t, t') ensures env.usable(r) {
      assert r in t'.calls && r in results;
      assert !env.usable(r) ==> r.tool in FailedIn(env, results);
    }
  }

  lemma UsableBeforeRound(env: Env, iteration: nat, t: Trace, t': Trace)
    requires |t.calls| <= |t'.calls| && t.calls == t'.calls[..|t.calls|]
    requires forall r :: r in t.calls ==> r.iteration < iteration
    requires forall r :: r in Fresh(t, t') ==> r.iteration == iteration
    ensures UsableBefore(env, t'.calls, iteration) == UsableTools(env, t.calls)
  {
    CallsSplit(t, t');
  }

  lemma ExecutedIsExact(env: Env, expected: seq<string>, pending: seq<string>, iteration: nat, t: Trace, t': Trace)
    requires ExactBetween(env, expected, pending, t.calls) && Dated(t.calls, iteration - 1)
    requires |t.calls| <= |t'.calls| && t.calls == t'.calls[..|t.calls|]
    requires forall r :: r in Fresh(t, t') ==> r.iteration == iteration && r.tool in Elements(pending)
    requires Closed(Elements(expected)) && (forall r :: r in Fresh(t, t') ==> env.usable(r)) ==>
               Elements(expected) <= UsableTools(env, t'.calls)
    ensures ExactExecuted(env, expected, pending, t'.calls, iteration)
  {
    CallsSplit(t, t');
    UsableBeforeRound(env, iteration, t, t');
    if FailedIn(env, OfIteration(t'.calls, iteration)) == {} { FlawlessMeansUsable(env, t, t', iteration); }
  }

  lemma ExecutedIsLogged(env: Env, expected: seq<string>, pending: seq<string>, t: Trace, t': Trace)
    requires ExactLog(env, expected, t.calls) && ExactBetween(env, expected, pending, t.calls)
    requires |t.calls| <= |t'.calls| && t.calls == t'.calls[..|t.calls|]
    requires forall r :: r in Fresh(t, t') ==> r.tool in Elements(pending)
    requires NoRepeat(env, t'.calls) && OncePerIteration(t'.calls)
    ensures ExactLog(env, expected, t'.calls)
  {
    CallsSplit(t, t');
    assert forall x :: x in Elements(pending) ==> x in expected;
  }

  lemma CardinalityMonotone<T>(a: set<T>, b: set<T>)
    requires a <= b
    ensures |a| <= |b|
  {
    assert b == a + (b - a);
  }

  lemma ExecutorCounts(env: Env, c: Config, a: Answers)
    requires Counted(c) && c.node == Executing
    requires ExactBetween(env, c.s.expected, c.s.pending, c.s.calls)
    requires |ExecutorNode(env, c.s).calls| <= |c.s.calls| + |Elements(c.s.pending)|
    ensures Counted(Step(env, c, a))
  {
    CardinalityMonotone(Elements(c.s.pending), Elements(c.s.expected));
  }

  lemma ExecutorKeepsExact(env: Env, c: Config, a: Answers)
    requires Exact(env, c) && Safe(env, c) && c.node == Executing
    ensures Exact(env, Step(env, c, a))
  {
    var s := c.s;
    var t := Trace(s.context, s.calls);
    var t' := ExecTools(env, s.iteration, Flatten(s.dag), t);
    ExecutorRound(env, s.iteration, Elements(s.expected), t);
    ExecutorKeepsLists(env, s.iteration, Elements(s.expected), t);
    ExecutedIsExact(env, s.expected, s.pending, s.iteration, t, t');
    ExecutedIsLogged(env, s.expected, s.pending, t, t');
    ExecutorCounts(env, c, a);
  }

  /** After a verdict with the LLM off, exactly the tools without a usable call in this iteration remain. */
  lemma OfflineRemaining(env: Env, pending: set<string>, results: seq<Record>, v: CriticOutput)
    requires v.resolved <==> FailedIn(env, results) == {}
    requires Elements(v.failedTools) == FailedIn(env, results)
    requires forall r :: r in results ==> r.tool in pending
    requires forall p, q :: p in results && q in results && p.tool == q.tool ==> p == q
    ensures Remaining(env, pending, results, v) == pending - UsableTools(env, results)
    ensures !v.resolved ==> Remaining(env, pending, results, v) != {}
  {
    if !v.resolved { assert exists x :: x in FailedIn(env, results); }
    forall x | x in FailedIn(env, results) ensures x in pending - UsableTools(env, results) { }
  }

  lemma ResultsAreDistinct(calls: seq<Record>, iteration: nat)
    requires OncePerIteration(calls)
    ensures forall p, q :: p in OfIteration(calls, iteration) && q in OfIteration(calls, iteration) && p.tool == q.tool ==> p == q
  {
    forall p, q | p in calls && q in calls && p.iteration == q.iteration && p.tool == q.tool ensures p == q {
      var i :| 0 <= i < |calls| && calls[i] == p;
      var j :| 0 <= j < |calls| && calls[j] == q;
    }
  }

  lemma VerdictLeaves(env: Env, expected: seq<string>, pending: seq<string>, calls: seq<Record>, iteration: nat, v: CriticOutput)
    requires ExactExecuted(env, expected, pending, calls, iteration)
    requires OncePerIteration(calls) && Dated(calls, iteration)
    requires v.resolved <==> FailedIn(env, OfIteration(calls, iteration)) == {}
    requires Elements(v.failedTools) == FailedIn(env, OfIteration(calls, iteration))
    ensures var remaining := Remaining(env, Elements(pending), OfIteration(calls, iteration), v);
            && remaining == Elements(expected) - UsableTools(env, calls)
            && (Closed(Elements(expected)) ==> (v.resolved <==> remaining == {}))
  {
    var results := OfIteration(calls, iteration);
    SplitUsable(env, calls, iteration);
    ResultsAreDistinct(calls, iteration);
    OfflineRemaining(env, Elements(pending), results, v);
  }

  lemma SortedEmpty(xs: set<string>)
    ensures Sorted(xs) == [] <==> xs == {}
  {
    EmptyElements(Sorted(xs));
  }

  lemma CriticPending(env: Env, s: State, a: Answers)
    requires !env.useLlm && OncePerIteration(s.calls) && Dated(s.calls, s.iteration)
    requires ExactExecuted(env, s.expected, s.pending, s.calls, s.iteration)
    ensures var s' := CriticNode(env, s, a);
            && ExactBetween(env, s.expected, s'.pending, s.calls)
            && (Closed(Elements(s.expected)) ==> s'.replans == s.replans + if s'.pending == [] then 0 else 1)
  {
    hide Judge, FailedIn, UsableTools, Closed, OncePerIteration, OfIteration;
    var results := OfIteration(s.calls, s.iteration);
    var v := Judge(env, results, a.hits, a.criticReply);
    OfflineVerdict(env, results, a.hits, a.criticReply);
    VerdictLeaves(env, s.expected, s.pending, s.calls, s.iteration, v);
    SortedEmpty(Remaining(env, Elements(s.pending), results, v));
  }

  lemma BetweenIsExact(env: Env, c: Config)
    requires c.node == Planner || c.node == Response
    requires ExactLog(env, c.s.expected, c.s.calls) && Counted(c)
    requires ExactBetween(env, c.s.expected, c.s.pending, c.s.calls)
    ensures Exact(env, c)
  {
  }

  lemma CriticCounts(env: Env, c: Config, a: Answers)
    requires c.node == Judging && Counted(c)
    requires Closed(Elements(c.s.expected)) ==>
      CriticNode(env, c.s, a).replans == c.s.replans + if CriticNode(env, c.s, a).pending == [] then 0 else 1
    ensures Counted(Step(env, c, a))
  {
    var s' := CriticNode(env, c.s, a);
    assert s'.iteration == c.s.iteration && s'.calls == c.s.calls && s'.expected == c.s.expected;
  }

  lemma CriticKeepsExact(env: Env, c: Config, a: Answers)
    requires !env.useLlm && Exact(env, c) && Safe(env, c) && c.node == Judging
    ensures Exact(env, Step(env, c, a))
  {
    CriticPending(env, c.s, a);
    CriticCounts(env, c, a);
    var s' := CriticNode(env, c.s, a);
    assert s'.calls == c.s.calls && s'.expected == c.s.expected;
    BetweenIsExact(env, Config(RouteAfterCritic(s'), s'));
  }

  lemma StepKeepsExact(env: Env, c: Config, a: Answers)
    requires !env.useLlm && Safe(env, c) && Exact(env, c)
    ensures Exact(env, Step(env, c, a))
  {
    match c.node
    case Executing => ExecutorKeepsExact(env, c, a);
    case Judging => CriticKeepsExact(env, c, a);
    case Planner => PlannerKeepsExact(env, c, a);
    case _ =>
  }

  lemma {:induction false} RunIsExact(env: Env, c: Config, answers: seq<Answers>)
    requires !env.useLlm && Safe(env, c) && Exact(env, c)
    ensures Exact(env, RunFrom(env, c, answers))
    decreases |answers|
  {
    if answers != [] {
      StepKeepsSafe(env, c, answers[0]);
      StepKeepsExact(env, c, answers[0]);
      RunIsExact(env, Step(env, c, answers[0]), answers[1..]);
    }
  }

  /** With the LLM off, whatever the memory and the tools answer: at every planning point and at the end, the pending
      tools are exactly the expected ones without a usable call. */
  lemma PendingIsExact(env: Env, ticketId: string, hasMessage: bool, intent: string, context: Dict,
                       expected: seq<string>, answers: seq<Answers>)
    requires !env.useLlm
    ensures var f := RunFrom(env, Start(ticketId, hasMessage, intent, context, expected), answers);
            f.node == Planner || Finished(f.node) ==>
              Elements(f.s.pending) == Elements(expected) - UsableTools(env, f.s.calls)
  {
    var c := Start(ticketId, hasMessage, intent, context, expected);
    StartIsSafe(env, ticketId, hasMessage, intent, context, expected);
    StartIsExact(env, ticketId, hasMessage, intent, context, expected);
    RunIsSafe(env, c, answers);
    RunIsExact(env, c, answers);
  }

  lemma StartIsExact(env: Env, ticketId: string, hasMessage: bool, intent: string, context: Dict, expected: seq<string>)
    ensures Exact(env, Start(ticketId, hasMessage, intent, context, expected))
  {
    assert UsableTools(env, []) == {};
  }

  /** The accounting of a finished run with the LLM off: no tool is called again once usable or twice in an
      iteration, only expected tools are called, and at most three times the expected ones. For a dependency-closed
      tool sequence the replan count is exact too. */
  lemma OfflineAccounting(env: Env, ticketId: string, hasMessage: bool, intent: string, context: Dict,
                          expected: seq<string>, answers: seq<Answers>)
    requires !env.useLlm && |answers| >= 12
    ensures var f := RunFrom(env, Start(ticketId, hasMessage, intent, context, expected), answers).s;
            && NoRepeat(env, f.calls) && OncePerIteration(f.calls)
            && (forall r :: r in f.calls ==> r.tool in expected)
            && |f.calls| <= 3 * |Elements(expected)|
            && (Closed(Elements(expected)) ==>
                  && (f.resolved ==> f.replans == f.iteration - 1)
                  && (!f.resolved ==> f.replans == f.iteration == 3))
  {
    var c := Start(ticketId, hasMessage, intent, context, expected);
    var f := RunFrom(env, c, answers);
    StartIsSafe(env, ticketId, hasMessage, intent, context, expected);
    StartIsExact(env, ticketId, hasMessage, intent, context, expected);
    RunIsSafe(env, c, answers);
    RunIsExact(env, c, answers);
    ResolvedIffNothingPending(env, f.s);
    BudgetOfThree(f.s.iteration, |Elements(expected)|);
  }

  lemma ResolvedIffNothingPending(env: Env, s: State)
    requires ExactBetween(env, s.expected, s.pending, s.calls)
    ensures Resolved(env, s.expected, s.calls) <==> s.pending == []
  {
    if s.pending == [] {
      assert Elements(s.pending) == {};
      forall t | t in s.expected ensures t in UsableTools(env, s.calls) {
        assert t in Elements(s.expected) && t !in Elements(s.pending);
      }
    } else {
      assert s.pending[0] in Elements(s.pending);
    }
  }

  lemma BudgetOfThree(rounds: nat, tools: nat)
    requires rounds <= 3
    ensures Budget(rounds, tools) <= 3 * tools
  {
    assert Budget(1, tools) == tools;
    assert Budget(2, tools) == tools + Budget(1, tools);
    assert Budget(3, tools) == tools + Budget(2, tools);
  }

  lemma ClosedWithLookup(tools: seq<string>, k: nat)
    requires k < |tools| && tools[k] == "order_lookup"
    ensures Closed(Elements(tools))
  {
    assert tools[k] in Elements(tools);
  }

  lemma ClosedWithoutRefund(tools: seq<string>)
    requires forall k :: 0 <= k < |tools| ==> |tools[k]| != 6
    ensures Closed(Elements(tools))
  {
    assert |"refund"| == 6;
  }

  /** Every tool sequence intake can produce is dependency-closed. */
  lemma IntakeIsClosed(intent: string)
    ensures Closed(Elements(IntentTools(intent)))
  {
    if intent == "refund_request" || intent == "billing_dispute" {
      ClosedWithLookup(IntentTools(intent), 1);
    } else {
      ClosedWithoutRefund(IntentTools(intent));
    }
  }

  /** Which tickets need a tool: none twice, and no other tools. */
  lemma IntakeAsksFor(intent: string)
    ensures var tools := IntentTools(intent);
            && NoDup(tools) && Elements(tools) <= KNOWN_TOOLS
            && ("crm" in tools <==>
                  intent in {"refund_request", "billing_dispute", "order_status", "account_issue", "complaint_escalation"})
            && ("order_lookup" in tools <==>
                  intent in {"refund_request", "billing_dispute", "order_status", "complaint_escalation"})
            && ("refund" in tools <==> intent in {"refund_request", "billing_dispute"})
            && ("kb_search" in tools <==> intent !in {"refund_request", "order_status"})
  {
    assert |"crm"| == 3 && |"kb_search"| == 9 && |"order_lookup"| == 12 && |"refund"| == 6;
    assert |"refund_request"| == 14 && |"billing_dispute"| == 15 && |"order_status"| == 12 && |"account_issue"| == 13;
    assert |"complaint_escalation"| == 20;
  }

  // ---- why closedness is needed ----

  /** A refund without its lookup is never called, so its ticket never resolves. */
  lemma UnclosedNeverResolves(env: Env, ticketId: string, hasMessage: bool, intent: string, context: Dict,
                              expected: seq<string>, answers: seq<Answers>)
    requires !env.useLlm && |answers| >= 12 && !Closed(Elements(expected))
    ensures var f := RunFrom(env, Start(ticketId, hasMessage, intent, context, expected), answers).s;
            !f.resolved && f.escalate && f.iteration == 3 && forall r :: r in f.calls ==> r.tool != "refund"
  {
    var c := Start(ticketId, hasMessage, intent, context, expected);
    var f := RunFrom(env, c, answers).s;
    StartIsSafe(env, ticketId, hasMessage, intent, context, expected);
    RunIsSafe(env, c, answers);
    EveryRunEnds(env, ticketId, hasMessage, intent, context, expected, answers);
    OfflineAccounting(env, ticketId, hasMessage, intent, context, expected, answers);
    LookupUnexpected(env, expected, f.calls);
    assert "refund" in expected && "refund" !in UsableTools(env, f.calls);
  }

  lemma LookupUnexpected(env: Env, expected: seq<string>, calls: seq<Record>)
    requires DependencySafe(env, calls) && (forall r :: r in calls ==> r.tool in expected)
    requires !Closed(Elements(expected))
    ensures forall r :: r in calls ==> r.tool != "refund"
  {
    forall r | r in calls ensures r.tool != "refund" {
      var i :| 0 <= i < |calls| && calls[i] == r;
      assert DependenciesOf(calls[i].tool) <= UsableTools(env, calls[..i]);
      assert forall d :: d in calls[..i] ==> d in calls;
    }
  }
}
