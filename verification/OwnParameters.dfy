/** The graph and the research loop phrase two parameters differently: the research loop searches the knowledge base for
    the customer's message and names the intent as the reason of a refund. Tools that do not look at the two make no
    difference between the two executors. */
module OwnParameters {
  import opened Values
  import opened Records
  import opened Ordering
  import opened Dag
  import opened Executor
  import opened Critic
  import opened Pipeline
  import opened Provenance
  import Research
  import Simulation
  import Usability

  /** The parameters of the research loop (`_prepare_params` there), for a message and a reason. */
  function ResearchParams(parse: string -> Option<real>, message: string, reason: string, tool: string, context: Dict): Dict {
    if tool == "kb_search" then map["query" := Str(message), "top_k" := Num(3.0)]
    else if tool == "refund" then PrepareParams(parse, tool, context)["reason" := Str(reason)]
    else PrepareParams(parse, tool, context)
  }

  const WORDING: set<string> := {"query", "reason"}

  /** Parameters without the two. */
  function Bare(params: Dict): Dict {
    params - WORDING
  }

  function BareRecord(r: Record): Record {
    r.(params := Bare(r.params))
  }

  function BareCalls(calls: seq<Record>): (r: seq<Record>)
    ensures |r| == |calls| && forall k :: 0 <= k < |r| ==> r[k] == BareRecord(calls[k])
  {
    if calls == [] then [] else [BareRecord(calls[0])] + BareCalls(calls[1..])
  }

  /** Two executors that differ at most in the wording, in a world that does not look at it. */
  ghost predicate Alike(e: Env, f: Env) {
    && e.useLlm == f.useLlm && e.parseFloat == f.parseFloat
    && (forall tool, context :: Bare(e.prepare(tool, context)) == Bare(f.prepare(tool, context)))
    && (forall r, q :: BareRecord(r) == BareRecord(q) ==> e.usable(r) == f.usable(q))
    && (forall log, log', tool, p, p' :: BareCalls(log) == BareCalls(log') && Bare(p) == Bare(p') ==>
          e.tools(log, tool, p) == f.tools(log', tool, p'))
  }

  predicate SameTrace(t: Trace, u: Trace) {
    t.context == u.context && BareCalls(t.calls) == BareCalls(u.calls)
  }

  lemma BareAt(c: seq<Record>, d: seq<Record>, k: nat)
    requires BareCalls(c) == BareCalls(d) && k < |c|
    ensures |c| == |d| && BareRecord(c[k]) == BareRecord(d[k])
  {
    assert BareCalls(c)[k] == BareCalls(d)[k];
  }

  lemma BareAppend(c: seq<Record>, r: Record)
    ensures BareCalls(c + [r]) == BareCalls(c) + [BareRecord(r)]
  {
  }

  lemma AlikeIsSymmetric(e: Env, f: Env)
    requires Alike(e, f)
    ensures Alike(f, e)
  {
  }

  lemma UsableWithin(e: Env, f: Env, c: seq<Record>, d: seq<Record>)
    requires Alike(e, f) && BareCalls(c) == BareCalls(d)
    ensures UsableTools(e, c) <= UsableTools(f, d)
  {
    forall t | t in UsableTools(e, c) ensures t in UsableTools(f, d) {
      var r :| r in c && e.usable(r) && r.tool == t;
      var k :| 0 <= k < |c| && c[k] == r;
      BareAt(c, d, k);
      assert d[k] in d && f.usable(d[k]) && d[k].tool == t;
    }
  }

  lemma SameUsable(e: Env, f: Env, c: seq<Record>, d: seq<Record>)
    requires Alike(e, f) && BareCalls(c) == BareCalls(d)
    ensures UsableTools(e, c) == UsableTools(f, d)
  {
    hide Alike, UsableTools;
    AlikeIsSymmetric(e, f);
    UsableWithin(e, f, c, d);
    UsableWithin(f, e, d, c);
  }

  lemma SameDispatch(e: Env, f: Env, iteration: nat, tool: string, t: Trace, u: Trace)
    requires Alike(e, f) && SameTrace(t, u)
    ensures BareRecord(Dispatch(e, iteration, tool, t)) == BareRecord(Dispatch(f, iteration, tool, u))
  {
  }

  lemma SameUpdate(parse: string -> Option<real>, r: Record, q: Record)
    requires BareRecord(r) == BareRecord(q)
    ensures UpdateContext(parse, r) == UpdateContext(parse, q)
  {
  }

  lemma ToolAlike(e: Env, f: Env, iteration: nat, tool: string, t: Trace, u: Trace)
    requires Alike(e, f) && SameTrace(t, u)
    ensures SameTrace(ExecTool(e, iteration, tool, t), ExecTool(f, iteration, tool, u))
  {
    hide UsableTools, Dispatch, UpdateContext;
    SameUsable(e, f, t.calls, u.calls);
    var r, q := Dispatch(e, iteration, tool, t), Dispatch(f, iteration, tool, u);
    SameDispatch(e, f, iteration, tool, t, u);
    SameUpdate(e.parseFloat, r, q);
    BareAppend(t.calls, r);
    BareAppend(u.calls, q);
  }

  lemma {:induction false} ToolsAlike(e: Env, f: Env, iteration: nat, tools: seq<string>, t: Trace, u: Trace)
    requires Alike(e, f) && SameTrace(t, u)
    ensures SameTrace(ExecTools(e, iteration, tools, t), ExecTools(f, iteration, tools, u))
  {
    hide Alike, SameTrace, ExecTool;
    if tools != [] {
      ToolAlike(e, f, iteration, tools[0], t, u);
      ToolsAlike(e, f, iteration, tools[1..], ExecTool(e, iteration, tools[0], t), ExecTool(f, iteration, tools[0], u));
    }
  }

  // ---- the verdict ----

  lemma {:induction false} SameIteration(c: seq<Record>, d: seq<Record>, iteration: nat)
    requires BareCalls(c) == BareCalls(d)
    ensures BareCalls(OfIteration(c, iteration)) == BareCalls(OfIteration(d, iteration))
  {
    assert |BareCalls(c)| == |c| && |BareCalls(d)| == |d|;
    if c != [] {
      BareAt(c, d, 0);
      BareTail(c, d);
      SameIteration(c[1..], d[1..], iteration);
    }
  }

  lemma BareTail(c: seq<Record>, d: seq<Record>)
    requires c != [] && BareCalls(c) == BareCalls(d)
    ensures d != [] && BareCalls(c[1..]) == BareCalls(d[1..])
  {
    assert |BareCalls(c)| == |BareCalls(d)|;
    assert BareCalls(c)[1..] == BareCalls(c[1..]) && BareCalls(d)[1..] == BareCalls(d[1..]);
  }

  lemma FailedWithin(e: Env, f: Env, c: seq<Record>, d: seq<Record>)
    requires Alike(e, f) && BareCalls(c) == BareCalls(d)
    ensures FailedIn(e, c) <= FailedIn(f, d)
  {
    forall t | t in FailedIn(e, c) ensures t in FailedIn(f, d) {
      var r :| r in c && !e.usable(r) && r.tool == t;
      var k :| 0 <= k < |c| && c[k] == r;
      BareAt(c, d, k);
      assert d[k] in d && !f.usable(d[k]) && d[k].tool == t;
    }
  }

  lemma SameFailed(e: Env, f: Env, c: seq<Record>, d: seq<Record>)
    requires Alike(e, f) && BareCalls(c) == BareCalls(d)
    ensures FailedIn(e, c) == FailedIn(f, d)
  {
    hide Alike, FailedIn;
    AlikeIsSymmetric(e, f);
    FailedWithin(e, f, c, d);
    FailedWithin(f, e, d, c);
  }

  lemma {:induction false} SameFirst(c: seq<Record>, d: seq<Record>, tool: string)
    requires BareCalls(c) == BareCalls(d) && exists r :: r in c && r.tool == tool
    ensures (exists r :: r in d && r.tool == tool) && BareRecord(FirstOf(c, tool)) == BareRecord(FirstOf(d, tool))
  {
    var r :| r in c && r.tool == tool;
    BareAt(c, d, 0);
    BareTail(c, d);
    assert forall x :: x in d <==> x == d[0] || x in d[1..];
    if c[0].tool != tool {
      assert r in c[1..];
      SameFirst(c[1..], d[1..], tool);
    } else {
      assert d[0] in d && d[0].tool == tool;
    }
  }

  lemma SameClass(r: Record, q: Record)
    requires BareRecord(r) == BareRecord(q)
    ensures ClassifyFailure(r) == ClassifyFailure(q)
  {
  }

  lemma SameVerdict(e: Env, f: Env, c: seq<Record>, d: seq<Record>, hits: seq<FailureHit>, reply: Option<CriticReply>)
    requires Alike(e, f) && BareCalls(c) == BareCalls(d)
    ensures Judge(e, c, hits, reply) == Judge(f, d, hits, reply)
  {
    hide BareCalls, BareRecord, ClassifyFailure, FirstHit, FirstNote;
    SameFailed(e, f, c, d);
    assert e.useLlm == f.useLlm;
    hide Alike;
    if FailedIn(e, c) != {} {
      hide Judge;
      var tool := Sorted(FailedIn(e, c))[0];
      assert tool in FailedIn(e, c);
      SameFirst(c, d, tool);
      SameClass(FirstOf(c, tool), FirstOf(d, tool));
      SameGrounds(e, f, c, d, tool, hits, reply);
    }
  }

  /** A verdict goes by the failed tools and the class of the least one's first record. */
  lemma SameGrounds(e: Env, f: Env, c: seq<Record>, d: seq<Record>, tool: string, hits: seq<FailureHit>,
                    reply: Option<CriticReply>)
    requires e.useLlm == f.useLlm && FailedIn(e, c) == FailedIn(f, d) != {} && tool == Sorted(FailedIn(e, c))[0]
    requires (exists r :: r in c && r.tool == tool) && (exists r :: r in d && r.tool == tool)
    requires ClassifyFailure(FirstOf(c, tool)) == ClassifyFailure(FirstOf(d, tool))
    ensures Judge(e, c, hits, reply) == Judge(f, d, hits, reply)
  {
    hide FailedIn, ClassifyFailure, FirstOf, FirstHit, FirstNote, OrElse;
  }

  // ---- whole runs ----

  /** The same state up to the wording in the call log. */
  predicate SameState(s: State, t: State) {
    s.(calls := []) == t.(calls := []) && BareCalls(s.calls) == BareCalls(t.calls)
  }

  predicate SameConfig(c: Config, d: Config) {
    c.node == d.node && SameState(c.s, d.s)
  }

  lemma {:induction false} SameFailureWrites(e: Env, f: Env, c: seq<Record>, d: seq<Record>, s: State, t: State)
    requires Alike(e, f) && BareCalls(c) == BareCalls(d)
    requires s.category == t.category && s.strategy == t.strategy && s.confidence == t.confidence
    ensures FailureWrites(e, c, s) == FailureWrites(f, d, t)
  {
    assert |BareCalls(c)| == |c| && |BareCalls(d)| == |d|;
    if c != [] {
      BareAt(c, d, 0);
      BareTail(c, d);
      SameFailureWrites(e, f, c[1..], d[1..], s, t);
    }
  }

  lemma ExecutorAlike(e: Env, f: Env, s: State, t: State)
    requires Alike(e, f) && SameState(s, t)
    ensures SameState(ExecutorNode(e, s), ExecutorNode(f, t))
  {
    hide Alike, ExecTools;
    ToolsAlike(e, f, s.iteration, Flatten(s.dag), Trace(s.context, s.calls), Trace(t.context, t.calls));
  }

  lemma CriticAlike(e: Env, f: Env, s: State, t: State, a: Answers)
    requires Alike(e, f) && SameState(s, t)
    ensures SameState(CriticNode(e, s, a), CriticNode(f, t, a))
  {
    hide Alike, Judge, UsableTools, OfIteration, BareCalls, Remaining, OrKeep;
    hide Elements;
    SameIteration(s.calls, t.calls, s.iteration);
    var c, d := OfIteration(s.calls, s.iteration), OfIteration(t.calls, t.iteration);
    SameVerdict(e, f, c, d, a.hits, a.criticReply);
    SameRemaining(e, f, Elements(s.pending), c, d, Judge(e, c, a.hits, a.criticReply));
  }

  lemma SameRemaining(e: Env, f: Env, pending: set<string>, c: seq<Record>, d: seq<Record>, v: CriticOutput)
    requires Alike(e, f) && BareCalls(c) == BareCalls(d)
    ensures Remaining(e, pending, c, v) == Remaining(f, pending, d, v)
  {
    hide Alike, UsableTools, BareCalls;
    SameUsable(e, f, c, d);
  }

  lemma PlanAlike(e: Env, f: Env, s: State, t: State, a: Answers)
    requires Alike(e, f) && SameState(s, t)
    ensures SameState(PlannerNode(e, s, a), PlannerNode(f, t, a))
  {
    hide FromPendingTools, FilteredTo;
  }

  lemma EndAlike(e: Env, f: Env, c: Config, d: Config, a: Answers)
    requires Alike(e, f) && SameConfig(c, d) && c.node !in {Planner, Executing, Judging}
    ensures SameConfig(Step(e, c, a), Step(f, d, a))
  {
    hide Alike, BareCalls, Resolved, MemoryWrites, PlannerNode, ExecutorNode, CriticNode;
    SameWrites(e, f, c.s, d.s);
    SameResolved(e, f, c.s, d.s);
  }

  lemma SameResolved(e: Env, f: Env, s: State, t: State)
    requires Alike(e, f) && SameState(s, t)
    ensures Resolved(e, s.expected, s.calls) == Resolved(f, t.expected, t.calls)
  {
    hide Alike, UsableTools, BareCalls;
    SameUsable(e, f, s.calls, t.calls);
  }

  lemma SameWrites(e: Env, f: Env, s: State, t: State)
    requires Alike(e, f) && SameState(s, t)
    ensures MemoryWrites(e, s) == MemoryWrites(f, t)
  {
    hide Alike, DependencyOrdered, FailureWrites, BareCalls;
    SameFailureWrites(e, f, s.calls, t.calls, s, t);
  }

  lemma StepAlike(e: Env, f: Env, c: Config, d: Config, a: Answers)
    requires Alike(e, f) && SameConfig(c, d)
    ensures SameConfig(Step(e, c, a), Step(f, d, a))
  {
    hide Alike, PlannerNode, ExecutorNode, CriticNode, BareCalls, Resolved, MemoryWrites;
    match c.node
    case Planner => PlanAlike(e, f, c.s, d.s, a);
    case Executing => ExecutorAlike(e, f, c.s, d.s);
    case Judging => CriticAlike(e, f, c.s, d.s, a);
    case _ => EndAlike(e, f, c, d, a);
  }

  /** Two such executors take the same course on a ticket: everything but the wording in the call log is the same. */
  lemma {:induction false} RunAlike(e: Env, f: Env, c: Config, d: Config, answers: seq<Answers>)
    requires Alike(e, f) && SameConfig(c, d)
    ensures SameConfig(RunFrom(e, c, answers), RunFrom(f, d, answers))
    decreases |answers|
  {
    hide Alike, SameConfig, Step;
    if answers != [] {
      StepAlike(e, f, c, d, answers[0]);
      RunAlike(e, f, Step(e, c, answers[0]), Step(f, d, answers[0]), answers[1..]);
    }
  }

  // ---- production and research with their own parameters ----

  /** Production's executor and the research loop's, on the same tools. */
  function OwnProduction(tools: (seq<Record>, string, Dict) -> ToolResult, parse: string -> Option<real>): Env {
    Production(false, tools, parse)
  }

  function OwnResearch(tools: (seq<Record>, string, Dict) -> ToolResult, parse: string -> Option<real>, message: string,
                       reason: string): Env
  {
    Env(false, (tool: string, context: Dict) => ResearchParams(parse, message, reason, tool, context), r => IsUsable(r), tools,
        parse)
  }

  /** The tools answer alike to parameters that differ in the wording only. */
  ghost predicate IgnoreWording(tools: (seq<Record>, string, Dict) -> ToolResult) {
    forall log, log', tool, p, p' :: BareCalls(log) == BareCalls(log') && Bare(p) == Bare(p') ==>
      tools(log, tool, p) == tools(log', tool, p')
  }

  lemma WordingOnly(parse: string -> Option<real>, message: string, reason: string, tool: string, context: Dict)
    ensures Bare(PrepareParams(parse, tool, context)) == Bare(ResearchParams(parse, message, reason, tool, context))
  {
    assert |"crm"| == 3 && |"order_lookup"| == 12 && |"refund"| == 6 && |"kb_search"| == 9;
  }

  lemma UsableIgnoresWording(r: Record, q: Record)
    requires BareRecord(r) == BareRecord(q)
    ensures IsUsable(r) <==> IsUsable(q)
  {
    assert |"query"| == 5 && |"reason"| == 6 && |"customer_id"| == 11 && |"order_id"| == 8;
    BareGets(r.params, "customer_id");
    BareGets(q.params, "customer_id");
    BareGets(r.params, "order_id");
    BareGets(q.params, "order_id");
    Usability.OnlyTheAnswerCounts(r, q);
  }

  lemma BareGets(params: Dict, key: string)
    requires key !in WORDING
    ensures Get(Bare(params), key) == Get(params, key)
  {
  }

  lemma OwnParametersAreAlike(tools: (seq<Record>, string, Dict) -> ToolResult, parse: string -> Option<real>,
                              message: string, reason: string)
    requires IgnoreWording(tools)
    ensures Alike(OwnProduction(tools, parse), OwnResearch(tools, parse, message, reason))
  {
    hide IsUsable, PrepareParams, ResearchParams, BareCalls, BareRecord, Bare;
    forall tool, context
      ensures Bare(PrepareParams(parse, tool, context)) == Bare(ResearchParams(parse, message, reason, tool, context))
    {
      WordingOnly(parse, message, reason, tool, context);
    }
    forall r, q | BareRecord(r) == BareRecord(q) ensures IsUsable(r) == IsUsable(q) { UsableIgnoresWording(r, q); }
  }

  /** With the LLM off, production with its own parameters and the research loop with its own agree on everything but the
      query and the reason in their logs, for every tools that do not look at those two. */
  lemma ProductionSimulatesResearchAsWorded(tools: (seq<Record>, string, Dict) -> ToolResult, parse: string -> Option<real>,
                                            message: string, reason: string, ticketId: string, hasMessage: bool,
                                            intent: string, context: Dict, expected: seq<string>, answers: seq<Answers>)
    requires IgnoreWording(tools) && |answers| >= 12
    ensures var f := RunFrom(OwnProduction(tools, parse), Start(ticketId, hasMessage, intent, context, expected), answers).s;
            var o := Research.Rounds(OwnResearch(tools, parse, message, reason), Elements(expected), 1,
                                     Research.Progress(Elements(expected), Trace(context, []), 0));
            && BareCalls(f.calls) == BareCalls(o.progress.trace.calls) && f.context == o.progress.trace.context
            && Elements(f.pending) == o.progress.pending
            && f.iteration == o.steps && f.replans == o.progress.replans && f.resolved == o.resolved
  {
    hide RunFrom, Research.Rounds, Alike, BareCalls, IsUsable;
    var e, g := OwnProduction(tools, parse), OwnResearch(tools, parse, message, reason);
    var c := Start(ticketId, hasMessage, intent, context, expected);
    OwnParametersAreAlike(tools, parse, message, reason);
    RunAlike(e, g, c, c, answers);
    forall r | g.usable(r) ensures r.success { UsableSucceeded(r); }
    Simulation.ProductionSimulatesResearch(g, ticketId, hasMessage, intent, context, expected, answers);
    SameParts(RunFrom(e, c, answers).s, RunFrom(g, c, answers).s);
  }

  lemma UsableSucceeded(r: Record)
    ensures IsUsable(r) ==> r.success
  {
  }

  lemma SameParts(s: State, t: State)
    requires SameState(s, t)
    ensures s.context == t.context && s.pending == t.pending && s.iteration == t.iteration && s.replans == t.replans
    ensures s.resolved == t.resolved
  {
  }
}
