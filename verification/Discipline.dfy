/** Under which answers of the LLMs the accounting of a run is as exact as without them. */
module Discipline {
  import opened Values
  import opened Records
  import opened Ordering
  import opened Dag
  import opened Executor
  import opened Critic
  import opened Pipeline
  import opened Safety
  import opened Accounting

  /** The plan lists no tool twice. */
  predicate PlansOnce(a: Answers) {
    a.planReply.Some? ==> NoDup(Flatten(a.planReply.value))
  }

  /** The verdict names only expected tools without a usable call. */
  predicate BlamesFairly(env: Env, s: State, a: Answers) {
    a.criticReply.Some? ==>
      forall t :: t in a.criticReply.value.failedTools ==> t in s.expected && t !in UsableTools(env, s.calls)
  }

  /** The LLMs do so at every step of the run. */
  predicate WellAdvised(env: Env, c: Config, answers: seq<Answers>)
    decreases |answers|
  {
    answers != [] ==>
      && (c.node == Planner ==> PlansOnce(answers[0]))
      && (c.node == Judging ==> BlamesFairly(env, c.s, answers[0]))
      && WellAdvised(env, Step(env, c, answers[0]), answers[1..])
  }

  // ---- filtering keeps plans free of repetition ----

  lemma {:induction false} KeepInAppend(a: seq<string>, b: seq<string>, allowed: set<string>)
    ensures KeepIn(a + b, allowed) == KeepIn(a, allowed) + KeepIn(b, allowed)
  {
    if a == [] {
      assert a + b == b;
    } else {
      assert (a + b)[1..] == a[1..] + b;
      KeepInAppend(a[1..], b, allowed);
    }
  }

  lemma {:induction false} FlattenFiltered(layers: Layers, allowed: set<string>)
    ensures Flatten(FilteredTo(layers, allowed)) == KeepIn(Flatten(layers), allowed)
  {
    if layers != [] {
      FlattenFiltered(layers[1..], allowed);
      assert FilteredTo(layers, allowed)[1..] == FilteredTo(layers[1..], allowed);
      KeepInAppend(layers[0], Flatten(layers[1..]), allowed);
    }
  }

  lemma {:induction false} KeepInNoDup(tools: seq<string>, allowed: set<string>)
    requires NoDup(tools)
    ensures NoDup(KeepIn(tools, allowed))
  {
    if tools != [] {
      var rest := KeepIn(tools[1..], allowed);
      KeepInNoDup(tools[1..], allowed);
      if tools[0] in allowed {
        forall j | 0 <= j < |rest| ensures rest[j] != tools[0] { assert rest[j] in rest && rest[j] in tools[1..]; }
      }
    }
  }

  /** The places `at`, from `from` on, are those of the allowed entries. */
  predicate PicksAllowed(at: seq<nat>, layer: seq<string>, allowed: set<string>, from: nat) {
    forall l :: from <= l < |layer| ==> (l in at <==> layer[l] in allowed)
  }

  lemma PicksAllowedowedEarlier(at: seq<nat>, layer: seq<string>, allowed: set<string>, from: nat)
    requires from < |layer| && PicksAllowed(at, layer, allowed, from + 1) && from !in at
    ensures PicksAllowed(if layer[from] in allowed then [from] + at else at, layer, allowed, from)
  {
    assert forall l :: l in [from] + at <==> l == from || l in at;
  }

  /** A filtered layer is the layer without the other tools, in the same order: `at` says which entries stay, from `from`
      on. */
  lemma {:induction false} KeepInKeeps(layer: seq<string>, allowed: set<string>, from: nat) returns (at: seq<nat>)
    requires from <= |layer|
    ensures Picks(at, KeepIn(layer[from..], allowed), layer, from) && PicksAllowed(at, layer, allowed, from)
    decreases |layer| - from
  {
    if from == |layer| {
      at := [];
    } else {
      hide KeepIn, Picks, PicksAllowed;
      assert layer[from..][0] == layer[from] && layer[from..][1..] == layer[from + 1..];
      at := KeepInKeeps(layer, allowed, from + 1);
      KeepInHead(layer[from..], allowed);
      PicksEarlier(at, KeepIn(layer[from + 1..], allowed), layer, from);
      PicksAllowedowedEarlier(at, layer, allowed, from);
      if layer[from] in allowed { at := [from] + at; }
    }
  }

  lemma KeepInHead(layer: seq<string>, allowed: set<string>)
    requires layer != []
    ensures KeepIn(layer, allowed) ==
            if layer[0] in allowed then [layer[0]] + KeepIn(layer[1..], allowed) else KeepIn(layer[1..], allowed)
  {
  }

  /** With the LLM's answer the plan is that answer, layer by layer and in its order, without the tools that are not
      pending; empty layers stay. */
  lemma PlanIsTheAnswerCutDown(env: Env, s: State, a: Answers, k: nat) returns (at: seq<nat>)
    requires env.useLlm && s.hasMessage && a.planReply.Some? && k < |a.planReply.value|
    ensures var plan, said := Plan(env, s, a), a.planReply.value;
            && |plan| == |said| && Picks(at, plan[k], said[k], 0) && PicksAllowed(at, said[k], Elements(s.pending), 0)
  {
    hide Picks, PicksAllowed;
    var said := a.planReply.value[k];
    at := KeepInKeeps(said, Elements(s.pending), 0);
    assert said[0..] == said;
  }

  lemma PlanListsPendingOnce(env: Env, s: State, a: Answers)
    requires PlansOnce(a)
    ensures var order := Flatten(Plan(env, s, a)); NoDup(order) && forall t :: t in order ==> t in Elements(s.pending)
  {
    hide FromPendingTools, FilteredTo, Flatten, KeepIn, NoDup;
    var pending := Elements(s.pending);
    FallbackCoversOnce(pending);
    assert forall t :: t in Flatten(FromPendingTools(pending)) ==> t in Elements(Flatten(FromPendingTools(pending)));
    if a.planReply.Some? {
      FlattenFiltered(a.planReply.value, pending);
      KeepInNoDup(Flatten(a.planReply.value), pending);
      assert forall t :: t in KeepIn(Flatten(a.planReply.value), pending) ==> t in pending;
    }
  }

  // ---- what such runs keep ----

  /** Between executor and critic: the pending tools are those not usable before, and only they were called. */
  predicate Executed(env: Env, expected: seq<string>, pending: seq<string>, calls: seq<Record>, iteration: nat) {
    && Elements(pending) == Elements(expected) - UsableBefore(env, calls, iteration)
    && forall r :: r in calls && r.iteration == iteration ==> r.tool in Elements(pending)
  }

  predicate WithinBudget(c: Config) {
    var full := if c.node == Executing then c.s.iteration - 1 else c.s.iteration;
    full >= 0 && |c.s.calls| <= Budget(full, |Elements(c.s.expected)|)
  }

  predicate Orderly(env: Env, c: Config) {
    && ExactLog(env, c.s.expected, c.s.calls) && WithinBudget(c)
    && (if c.node == Judging then Executed(env, c.s.expected, c.s.pending, c.s.calls, c.s.iteration)
        else ExactBetween(env, c.s.expected, c.s.pending, c.s.calls))
    && (c.node == Executing ==> NoDup(Flatten(c.s.dag)) && forall t :: t in Flatten(c.s.dag) ==> t in Elements(c.s.pending))
  }

  /** Calling tools without a usable call once each repeats nothing. */
  lemma RoundKeepsLists(env: Env, iteration: nat, tools: seq<string>, t: Trace)
    requires NoRepeat(env, t.calls) && OncePerIteration(t.calls) && NoDup(tools)
    requires forall r :: r in t.calls ==> r.iteration < iteration
    requires forall x :: x in tools ==> x !in UsableTools(env, t.calls)
    ensures var t' := ExecTools(env, iteration, tools, t); NoRepeat(env, t'.calls) && OncePerIteration(t'.calls)
  {
    hide ExecTools, NoDup;
    var t' := ExecTools(env, iteration, tools, t);
    ExecToolsExtends(env, iteration, tools, t);
    ExecToolsDistinct(env, iteration, tools, t);
    forall i, j | 0 <= i < j < |t'.calls|
      ensures env.usable(t'.calls[i]) ==> t'.calls[i].tool != t'.calls[j].tool
      ensures t'.calls[i].iteration == t'.calls[j].iteration ==> t'.calls[i].tool != t'.calls[j].tool
    {
      if i < |t.calls| {
        assert t'.calls[i] == t.calls[i];
        if j < |t.calls| {
          assert t'.calls[j] == t.calls[j];
        } else {
          assert t.calls[i] in t.calls && t'.calls[j] in Fresh(t, t');
        }
      }
    }
  }

  lemma RoundIsShort(env: Env, iteration: nat, tools: seq<string>, t: Trace, expected: set<string>)
    requires NoDup(tools) && forall x :: x in tools ==> x in expected
    ensures |ExecTools(env, iteration, tools, t).calls| <= |t.calls| + |expected|
  {
    hide ExecTools;
    ExecToolsExtends(env, iteration, tools, t);
    NoDupCounts(tools);
    CardinalityMonotone(Elements(tools), expected);
  }

  lemma ExecutorStaysOrderly(env: Env, c: Config, a: Answers)
    requires Safe(env, c) && Orderly(env, c) && c.node == Executing
    ensures Orderly(env, Step(env, c, a))
  {
    hide ExecTools, NoDup, NoRepeat, OncePerIteration, Resolved, DependencySafe, Accounted, VerdictSafe;
    var s := c.s;
    var t := Trace(s.context, s.calls);
    var order := Flatten(s.dag);
    var t' := ExecTools(env, s.iteration, order, t);
    RoundKeepsLists(env, s.iteration, order, t);
    RoundIsShort(env, s.iteration, order, t, Elements(s.expected));
    ExecToolsExtends(env, s.iteration, order, t);
    UsableBeforeRound(env, s.iteration, t, t');
    CallsSplit(t, t');
  }

  lemma PlannerStaysOrderly(env: Env, c: Config, a: Answers)
    requires Orderly(env, c) && c.node == Planner && PlansOnce(a)
    ensures Orderly(env, Step(env, c, a))
  {
    hide Plan, NoDup, NoRepeat, OncePerIteration, UsableTools;
    PlanListsPendingOnce(env, c.s, a);
  }

  /** The tools a fair verdict blames have no usable call. */
  lemma BlamedAreUnusable(env: Env, s: State, a: Answers)
    requires OncePerIteration(s.calls) && Executed(env, s.expected, s.pending, s.calls, s.iteration) && Dated(s.calls, s.iteration)
    requires BlamesFairly(env, s, a)
    ensures var v := Judge(env, OfIteration(s.calls, s.iteration), a.hits, a.criticReply);
            Elements(v.failedTools) <= Elements(s.expected) - UsableTools(env, s.calls)
  {
    var results := OfIteration(s.calls, s.iteration);
    FailedAreUnusable(env, s);
    JudgeBlames(env, results, a.hits, a.criticReply);
  }

  lemma JudgeBlames(env: Env, results: seq<Record>, hits: seq<FailureHit>, reply: Option<CriticReply>)
    ensures var v := Judge(env, results, hits, reply);
            Elements(v.failedTools) <= FailedIn(env, results) + (if reply.Some? then Elements(reply.value.failedTools) else {})
  {
    hide FailedIn, ClassifyFailure;
  }

  lemma FailedAreUnusable(env: Env, s: State)
    requires OncePerIteration(s.calls) && Executed(env, s.expected, s.pending, s.calls, s.iteration) && Dated(s.calls, s.iteration)
    ensures FailedIn(env, OfIteration(s.calls, s.iteration)) <= Elements(s.expected) - UsableTools(env, s.calls)
  {
    hide OncePerIteration;
    var results := OfIteration(s.calls, s.iteration);
    ResultsAreDistinct(s.calls, s.iteration);
    SplitUsable(env, s.calls, s.iteration);
    forall x | x in FailedIn(env, results) ensures x in Elements(s.expected) - UsableTools(env, s.calls) {
      var r :| r in results && !env.usable(r) && r.tool == x;
      assert r in s.calls;
    }
  }

  /** Then the tools left pending are those without a usable call. */
  lemma FairVerdictLeaves(env: Env, s: State, a: Answers)
    requires OncePerIteration(s.calls) && Executed(env, s.expected, s.pending, s.calls, s.iteration) && Dated(s.calls, s.iteration)
    requires BlamesFairly(env, s, a)
    ensures ExactBetween(env, s.expected, CriticNode(env, s, a).pending, s.calls)
  {
    hide Judge, OncePerIteration, UsableTools, UsableBefore, BlamesFairly, OfIteration;
    BlamedAreUnusable(env, s, a);
    SplitUsable(env, s.calls, s.iteration);
  }

  lemma CriticStaysOrderly(env: Env, c: Config, a: Answers)
    requires Safe(env, c) && Orderly(env, c) && c.node == Judging && BlamesFairly(env, c.s, a)
    ensures Orderly(env, Step(env, c, a))
  {
    hide Judge, NoRepeat, OncePerIteration, Resolved, DependencySafe, Accounted, VerdictSafe, UsableTools, UsableBefore;
    hide BlamesFairly, Dated, Executed, ExactBetween, Remaining, OfIteration;
    FairVerdictLeaves(env, c.s, a);
  }

  lemma StepStaysOrderly(env: Env, c: Config, a: Answers)
    requires Safe(env, c) && Orderly(env, c)
    requires (c.node == Planner ==> PlansOnce(a)) && (c.node == Judging ==> BlamesFairly(env, c.s, a))
    ensures Orderly(env, Step(env, c, a))
  {
    hide Judge, Plan, Remaining, ExecTools, MemoryWrites, Safe, Resolved, ExactLog, ExactBetween, PlansOnce, BlamesFairly;
    match c.node
    case Executing => ExecutorStaysOrderly(env, c, a);
    case Judging => CriticStaysOrderly(env, c, a);
    case Planner => PlannerStaysOrderly(env, c, a);
    case _ =>
  }

  lemma {:induction false} RunStaysOrderly(env: Env, c: Config, answers: seq<Answers>)
    requires Safe(env, c) && Orderly(env, c) && WellAdvised(env, c, answers)
    ensures Orderly(env, RunFrom(env, c, answers))
    decreases |answers|
  {
    hide Step, Safe, Orderly, PlansOnce, BlamesFairly;
    if answers != [] {
      StepKeepsSafe(env, c, answers[0]);
      StepStaysOrderly(env, c, answers[0]);
      RunStaysOrderly(env, Step(env, c, answers[0]), answers[1..]);
    }
  }

  lemma StartIsOrderly(env: Env, ticketId: string, hasMessage: bool, intent: string, context: Dict, expected: seq<string>)
    ensures Orderly(env, Start(ticketId, hasMessage, intent, context, expected))
  {
  }

  /** With LLMs whose plans repeat no tool and whose verdicts blame only expected tools without a usable call: no tool is
      called again once usable or twice in an iteration, at most three times the expected calls are made, and the tools
      left pending are exactly those without a usable call. */
  lemma WellAdvisedAccounting(env: Env, ticketId: string, hasMessage: bool, intent: string, context: Dict,
                              expected: seq<string>, answers: seq<Answers>)
    requires |answers| >= 12 && WellAdvised(env, Start(ticketId, hasMessage, intent, context, expected), answers)
    ensures var f := RunFrom(env, Start(ticketId, hasMessage, intent, context, expected), answers).s;
            && NoRepeat(env, f.calls) && OncePerIteration(f.calls)
            && (forall r :: r in f.calls ==> r.tool in expected)
            && |f.calls| <= 3 * |Elements(expected)|
            && Elements(f.pending) == Elements(expected) - UsableTools(env, f.calls)
  {
    hide RunFrom, WellAdvised, Safe, NoRepeat, OncePerIteration, UsableTools;
    var c := Start(ticketId, hasMessage, intent, context, expected);
    var d := RunFrom(env, c, answers);
    StartIsSafe(env, ticketId, hasMessage, intent, context, expected);
    StartIsOrderly(env, ticketId, hasMessage, intent, context, expected);
    RunStaysOrderly(env, c, answers);
    RunIsSafe(env, c, answers);
    EveryRunEnds(env, ticketId, hasMessage, intent, context, expected, answers);
    BudgetOfThree(d.s.iteration, |Elements(expected)|);
  }
}
