/** The ticket pipeline (src/graph/pipeline.py) as a state machine: each graph node is a step, and a run feeds the
    steps with the answers of the planner LLM, the critic LLM and the memory store. */
module Pipeline {
  import opened Values
  import opened Records
  import opened Ordering
  import opened Dag
  import opened Executor
  import opened Critic

  const MAX_ITERATIONS: nat := 3

  datatype Node = Planner | Executing | Judging | Response | Escalation | WriteMemory | End

  datatype MemoryWrite =
    | Episode(ticketId: string, intent: string, plan: Layers, success: bool)
    | Template(intent: string, plan: Layers)
    | ToolFailure(tool: string, category: string, strategy: string, confidence: real)

  datatype State = State(
    ticketId: string, hasMessage: bool, intent: string,
    context: Dict, pending: seq<string>, expected: seq<string>,
    dag: Layers, calls: seq<Record>, iteration: nat,
    resolved: bool, memoryHit: bool, replans: nat,
    category: string, strategy: string, confidence: real, distance: Option<real>,
    escalate: bool, writes: seq<MemoryWrite>)

  datatype Config = Config(node: Node, s: State)

  /** What the outside world says during one step. `planReply` is None when the planner's LLM call or the parsing of
      its answer failed; a step ignores the parts its node does not ask for. */
  datatype Answers = Answers(
    templates: bool, distance: Option<real>, planReply: Option<Layers>,
    hits: seq<FailureHit>, criticReply: Option<CriticReply>)

  // ---- intake ----

  /** The intent-to-tools table, with the default for an unlisted intent. */
  function IntentTools(intent: string): seq<string> {
    if intent == "refund_request" then ["crm", "order_lookup", "refund"]
    else if intent == "order_status" then ["crm", "order_lookup"]
    else if intent == "billing_dispute" then ["crm", "order_lookup", "kb_search", "refund"]
    else if intent == "account_issue" then ["crm", "kb_search"]
    else if intent == "complaint_escalation" then ["crm", "order_lookup", "kb_search"]
    else ["kb_search"]
  }

  /** The state intake leaves behind, for any extracted context and any tool sequence. */
  function Start(ticketId: string, hasMessage: bool, intent: string, context: Dict, expected: seq<string>): Config {
    Config(Planner, State(ticketId, hasMessage, intent, context, expected, expected, [], [], 0,
                          false, false, 0, "", "", 0.5, None, false, []))
  }

  /** Intake proper: the tools follow from the intent; the regular expressions' findings are `order`, `email` and
      `amount`. */
  function Intake(ticketId: string, customerId: string, hasMessage: bool, intent: string,
                  order: Option<string>, email: Option<string>, amount: Option<real>): Config {
    var c0: Dict := map["customer_id" := Str(customerId)];
    var c1 := if order.Some? then c0["order_id" := Str(order.value)] else c0;
    var c2 := if email.Some? then c1["email" := Str(email.value)] else c1;
    var c3 := if amount.Some? then c2["amount" := Num(amount.value)] else c2;
    Start(ticketId, hasMessage, intent, c3, IntentTools(intent))
  }

  // ---- the nodes ----

  function KeepIn(layer: seq<string>, allowed: set<string>): (r: seq<string>)
    ensures forall t :: t in r <==> t in layer && t in allowed
  {
    if layer == [] then []
    else (if layer[0] in allowed then [layer[0]] else []) + KeepIn(layer[1..], allowed)
  }

  function FilteredTo(layers: Layers, allowed: set<string>): (r: Layers)
    ensures |r| == |layers| && forall k :: 0 <= k < |r| ==> r[k] == KeepIn(layers[k], allowed)
  {
    if layers == [] then [] else [KeepIn(layers[0], allowed)] + FilteredTo(layers[1..], allowed)
  }

  /** `planner._run`: the LLM's layers cut down to pending tools, or the deterministic plan. */
  function Plan(env: Env, s: State, a: Answers): Layers {
    var pending := Elements(s.pending);
    if !env.useLlm || !s.hasMessage || a.planReply.None? then FromPendingTools(pending)
    else FilteredTo(a.planReply.value, pending)
  }

  function PlannerNode(env: Env, s: State, a: Answers): State {
    s.(dag := Plan(env, s, a), memoryHit := s.memoryHit || a.templates, distance := a.distance,
       iteration := s.iteration + 1)
  }

  function ExecutorNode(env: Env, s: State): State {
    var t := ExecTools(env, s.iteration, Flatten(s.dag), Trace(s.context, s.calls));
    s.(context := t.context, calls := t.calls)
  }

  function OfIteration(calls: seq<Record>, iteration: nat): (r: seq<Record>)
    ensures forall c :: c in r <==> c in calls && c.iteration == iteration
  {
    if calls == [] then []
    else (if calls[0].iteration == iteration then [calls[0]] else []) + OfIteration(calls[1..], iteration)
  }

  /** The pending set after a verdict. */
  function Remaining(env: Env, pending: set<string>, results: seq<Record>, verdict: CriticOutput): set<string> {
    var succeeded := UsableTools(env, results);
    if verdict.resolved then pending - succeeded
    else Elements(verdict.failedTools) + (pending - succeeded)
  }

  function OrKeep(now: string, before: string): string {
    if now != "" then now else before
  }

  function ApplyVerdict(env: Env, s: State, results: seq<Record>, v: CriticOutput): State {
    s.(pending := Sorted(Remaining(env, Elements(s.pending), results, v)),
       memoryHit := s.memoryHit || v.memoryHit,
       replans := s.replans + (if v.resolved then 0 else 1),
       category := OrKeep(v.category, s.category), strategy := OrKeep(v.strategy, s.strategy),
       confidence := v.confidence)
  }

  function CriticNode(env: Env, s: State, a: Answers): State {
    var results := OfIteration(s.calls, s.iteration);
    ApplyVerdict(env, s, results, Judge(env, results, a.hits, a.criticReply))
  }

  function RouteAfterCritic(s: State): Node {
    if s.pending == [] || s.iteration >= MAX_ITERATIONS then Response else Planner
  }

  /** `_check_resolved`: every expected tool has a usable record. */
  predicate Resolved(env: Env, expected: seq<string>, calls: seq<Record>) {
    forall t :: t in expected ==> t in UsableTools(env, calls)
  }

  function FailureWrite(r: Record, s: State): MemoryWrite {
    ToolFailure(r.tool, if s.category != "" then s.category else "unknown", s.strategy, s.confidence)
  }

  function FailureWrites(env: Env, calls: seq<Record>, s: State): seq<MemoryWrite> {
    if calls == [] then []
    else if env.usable(calls[0]) then FailureWrites(env, calls[1..], s)
    else [FailureWrite(calls[0], s)] + FailureWrites(env, calls[1..], s)
  }

  /** What `_memory_write_node` stores. A template is stored only if the last plan passes the order check. */
  function MemoryWrites(env: Env, s: State): seq<MemoryWrite> {
    [Episode(s.ticketId, s.intent, s.dag, s.resolved)]
      + if s.resolved then (if DependencyOrdered(s.dag) then [Template(s.intent, s.dag)] else [])
        else FailureWrites(env, s.calls, s)
  }

  /** One node of the graph and the edge out of it. */
  function Step(env: Env, c: Config, a: Answers): Config {
    match c.node
    case Planner => Config(Executing, PlannerNode(env, c.s, a))
    case Executing => Config(Judging, ExecutorNode(env, c.s))
    case Judging => var s := CriticNode(env, c.s, a); Config(RouteAfterCritic(s), s)
    case Response =>
      var resolved := Resolved(env, c.s.expected, c.s.calls);
      Config(if resolved then WriteMemory else Escalation, c.s.(resolved := resolved))
    case Escalation => Config(WriteMemory, c.s.(escalate := !c.s.resolved))
    case WriteMemory => Config(End, c.s.(writes := c.s.writes + MemoryWrites(env, c.s)))
    case End => c
  }

  /** A run: one step per entry of `answers`. */
  function RunFrom(env: Env, c: Config, answers: seq<Answers>): Config
    decreases |answers|
  {
    if answers == [] then c else RunFrom(env, Step(env, c, answers[0]), answers[1..])
  }

  // ---- the nodes written as loops ----

  /** `_check_resolved`. */
  method CheckResolved(env: Env, expected: seq<string>, calls: seq<Record>) returns (ok: bool)
    ensures ok <==> Resolved(env, expected, calls)
  {
    for i := 0 to |expected|
      invariant forall j :: 0 <= j < i ==> expected[j] in UsableTools(env, calls)
    {
      var found := false;
      for k := 0 to |calls|
        invariant found <==> exists j :: 0 <= j < k && calls[j].tool == expected[i] && env.usable(calls[j])
      {
        if calls[k].tool == expected[i] && env.usable(calls[k]) { found := true; }
      }
      if !found {
        assert expected[i] !in UsableTools(env, calls);
        return false;
      }
    }
    return true;
  }

  lemma FailureWritesStep(env: Env, calls: seq<Record>, s: State, k: nat, writes: seq<MemoryWrite>)
    requires k < |calls|
    ensures writes + FailureWrites(env, calls[k..], s) ==
            (if env.usable(calls[k]) then writes else writes + [FailureWrite(calls[k], s)]) + FailureWrites(env, calls[k + 1..], s)
  {
    assert calls[k..][1..] == calls[k + 1..];
    Dag.ConcatAssociates(writes, [FailureWrite(calls[k], s)], FailureWrites(env, calls[k + 1..], s));
  }

  /** The loop of `_memory_write_node` over the calls of an unresolved ticket. */
  method WriteFailures(env: Env, s: State) returns (writes: seq<MemoryWrite>)
    ensures writes == FailureWrites(env, s.calls, s)
  {
    writes := [];
    assert s.calls[0..] == s.calls;
    for k := 0 to |s.calls|
      invariant FailureWrites(env, s.calls, s) == writes + FailureWrites(env, s.calls[k..], s)
    {
      FailureWritesStep(env, s.calls, s, k, writes);
      if !env.usable(s.calls[k]) { writes := writes + [FailureWrite(s.calls[k], s)]; }
    }
  }

  /** `_memory_write_node`. */
  method WriteBack(env: Env, s: State) returns (writes: seq<MemoryWrite>)
    ensures writes == MemoryWrites(env, s)
  {
    var episode := [Episode(s.ticketId, s.intent, s.dag, s.resolved)];
    if s.resolved {
      var ordered := Dag.IsDependencyOrdered(s.dag);
      return episode + if ordered then [Template(s.intent, s.dag)] else [];
    }
    var failures := WriteFailures(env, s);
    return episode + failures;
  }
}
