/** What a finished ticket stores. */
module MemoryWriteback {
  import opened Values
  import opened Records
  import opened Ordering
  import opened Dag
  import opened Executor
  import opened Critic
  import opened Pipeline
  import opened Safety
  import opened Accounting

  /** The memory written so far: nothing before the write node, then exactly that node's writes. */
  predicate WrittenOnce(env: Env, c: Config) {
    if c.node == End then c.s.writes == MemoryWrites(env, c.s) else c.s.writes == []
  }

  lemma {:induction false} RunWritesOnce(env: Env, c: Config, answers: seq<Answers>)
    requires WrittenOnce(env, c)
    ensures WrittenOnce(env, RunFrom(env, c, answers))
    decreases |answers|
  {
    hide Judge, Plan, Remaining, ExecTools;
    if answers != [] {
      var c' := Step(env, c, answers[0]);
      if c.node == WriteMemory { WritesIgnoreWrites(env, c.s, c'.s.writes); }
      RunWritesOnce(env, c', answers[1..]);
    }
  }

  lemma WritesIgnoreWrites(env: Env, s: State, writes: seq<MemoryWrite>)
    ensures MemoryWrites(env, s.(writes := writes)) == MemoryWrites(env, s)
  {
    FailureWritesIgnoreWrites(env, s.calls, s, writes);
  }

  lemma {:induction false} FailureWritesIgnoreWrites(env: Env, calls: seq<Record>, s: State, writes: seq<MemoryWrite>)
    ensures FailureWrites(env, calls, s.(writes := writes)) == FailureWrites(env, calls, s)
  {
    if calls != [] { FailureWritesIgnoreWrites(env, calls[1..], s, writes); }
  }

  function CountUnusable(env: Env, calls: seq<Record>): nat {
    if calls == [] then 0 else (if env.usable(calls[0]) then 0 else 1) + CountUnusable(env, calls[1..])
  }

  /** The unusable calls, in the order they were made. */
  function Unusable(env: Env, calls: seq<Record>): seq<Record> {
    if calls == [] then [] else (if env.usable(calls[0]) then [] else [calls[0]]) + Unusable(env, calls[1..])
  }

  lemma {:induction false} UnusableCounts(env: Env, calls: seq<Record>)
    ensures |Unusable(env, calls)| == CountUnusable(env, calls)
    ensures forall r :: r in Unusable(env, calls) <==> r in calls && !env.usable(r)
  {
    if calls != [] {
      UnusableCounts(env, calls[1..]);
      assert forall r :: r in calls <==> r == calls[0] || r in calls[1..];
    }
  }

  /** The entry for a failed call: its tool, and what the last verdicts made of the failure. */
  predicate Recorded(w: MemoryWrite, r: Record, category: string, strategy: string, confidence: real) {
    && w.ToolFailure? && w.tool == r.tool && w.strategy == strategy && w.confidence == confidence
    && (category != "" ==> w.category == category) && (category == "" ==> w.category == "unknown")
  }

  /** The entries follow the unusable calls one by one. */
  lemma {:induction false} FailuresInOrder(env: Env, calls: seq<Record>, s: State)
    ensures var ws, failed := FailureWrites(env, calls, s), Unusable(env, calls);
            |ws| == |failed| && forall j :: 0 <= j < |ws| ==> Recorded(ws[j], failed[j], s.category, s.strategy, s.confidence)
  {
    if calls != [] {
      hide Recorded, FailureWrite;
      FailuresInOrder(env, calls[1..], s);
      EntryRecords(calls[0], s);
      OneMoreRecorded(FailureWrite(calls[0], s), calls[0], FailureWrites(env, calls[1..], s), Unusable(env, calls[1..]), s);
    }
  }

  lemma OneMoreRecorded(w: MemoryWrite, r: Record, ws: seq<MemoryWrite>, failed: seq<Record>, s: State)
    requires |ws| == |failed| && Recorded(w, r, s.category, s.strategy, s.confidence)
    requires forall j :: 0 <= j < |ws| ==> Recorded(ws[j], failed[j], s.category, s.strategy, s.confidence)
    ensures forall j :: 0 <= j < |ws| + 1 ==> Recorded(([w] + ws)[j], ([r] + failed)[j], s.category, s.strategy, s.confidence)
  {
    hide Recorded;
  }

  lemma EntryRecords(r: Record, s: State)
    ensures Recorded(FailureWrite(r, s), r, s.category, s.strategy, s.confidence)
  {
  }

  /** The tools the failure entries name. */
  function FailureTools(ws: seq<MemoryWrite>): set<string> {
    set w | w in ws && w.ToolFailure? :: w.tool
  }

  lemma FailureToolsAppend(w: MemoryWrite, ws: seq<MemoryWrite>)
    requires w.ToolFailure?
    ensures FailureTools([w] + ws) == {w.tool} + FailureTools(ws)
  {
    var all := [w] + ws;
    assert all[0] == w;
    assert forall x :: x in all <==> x == w || x in ws;
  }

  lemma FailedInHead(env: Env, calls: seq<Record>)
    requires calls != []
    ensures FailedIn(env, calls) == (if env.usable(calls[0]) then {} else {calls[0].tool}) + FailedIn(env, calls[1..])
  {
    assert calls[0] in calls;
    assert forall c :: c in calls <==> c == calls[0] || c in calls[1..];
  }

  /** One failure entry per unusable call, naming exactly the tools that failed. */
  lemma {:induction false} FailuresAreRecorded(env: Env, calls: seq<Record>, s: State)
    ensures var ws := FailureWrites(env, calls, s);
            && |ws| == CountUnusable(env, calls)
            && (forall w :: w in ws ==> w.ToolFailure? && w.category != "")
            && FailureTools(ws) == FailedIn(env, calls)
  {
    if calls != [] {
      FailuresAreRecorded(env, calls[1..], s);
      FailedInHead(env, calls);
      if !env.usable(calls[0]) {
        FailureToolsAppend(FailureWrite(calls[0], s), FailureWrites(env, calls[1..], s));
      }
    }
  }

  // ---- which plan is stored ----

  /** With the LLM off, the stored plan is the one of the last iteration. */
  predicate LastPlan(env: Env, c: Config) {
    c.node == Judging || Finished(c.node) ==>
      c.s.dag == FromPendingTools(Elements(c.s.expected) - UsableBefore(env, c.s.calls, c.s.iteration))
  }

  lemma ExecutorSetsLastPlan(env: Env, c: Config, a: Answers)
    requires !env.useLlm && Safe(env, c) && Exact(env, c) && c.node == Executing
    ensures LastPlan(env, Step(env, c, a))
  {
    hide FromPendingTools, ExecTools;
    var t := Trace(c.s.context, c.s.calls);
    ExecToolsExtends(env, c.s.iteration, Flatten(c.s.dag), t);
    UsableBeforeRound(env, c.s.iteration, t, ExecTools(env, c.s.iteration, Flatten(c.s.dag), t));
  }

  lemma StepKeepsLastPlan(env: Env, c: Config, a: Answers)
    requires !env.useLlm && Safe(env, c) && Exact(env, c) && LastPlan(env, c)
    ensures LastPlan(env, Step(env, c, a))
  {
    hide Judge, Plan, Remaining, MemoryWrites, FromPendingTools, UsableBefore, Safe, Exact, ExecTools;
    if c.node == Executing { ExecutorSetsLastPlan(env, c, a); }
  }

  lemma {:induction false} RunKeepsLastPlan(env: Env, c: Config, answers: seq<Answers>)
    requires !env.useLlm && Safe(env, c) && Exact(env, c) && LastPlan(env, c)
    ensures LastPlan(env, RunFrom(env, c, answers))
    decreases |answers|
  {
    hide Step, LastPlan, Safe, Exact;
    if answers != [] {
      StepKeepsSafe(env, c, answers[0]);
      StepKeepsExact(env, c, answers[0]);
      StepKeepsLastPlan(env, c, answers[0]);
      RunKeepsLastPlan(env, Step(env, c, answers[0]), answers[1..]);
    }
  }

  /** A plan always precedes its iteration: at every planning point something is pending. */
  predicate Busy(c: Config) {
    (c.node == Planner ==> c.s.pending != []) && (c.node == Executing ==> c.s.pending != [] && Flatten(c.s.dag) != []) &&
    (c.node == Judging || Finished(c.node) ==> Flatten(c.s.dag) != [])
  }

  lemma {:induction false} RunIsBusy(env: Env, c: Config, answers: seq<Answers>)
    requires !env.useLlm && Busy(c)
    ensures Busy(RunFrom(env, c, answers))
    decreases |answers|
  {
    if answers != [] {
      StepIsBusy(env, c, answers[0]);
      RunIsBusy(env, Step(env, c, answers[0]), answers[1..]);
    }
  }

  lemma StepIsBusy(env: Env, c: Config, a: Answers)
    requires !env.useLlm && Busy(c)
    ensures Busy(Step(env, c, a))
  {
    hide Judge, Remaining, MemoryWrites, ExecTools, FromPendingTools;
    if c.node == Planner {
      EmptyElements(c.s.pending);
      FallbackCoversOnce(Elements(c.s.pending));
      EmptyElements(Flatten(FromPendingTools(Elements(c.s.pending))));
    }
  }

  /** With the LLM off, a resolved ticket stores exactly one episode and one template. The template covers exactly the
      tools that were not usable before the last iteration, so after a replan that helped it does not cover the
      ticket's tools. */
  lemma ResolvedTicketsStoreTheirLastPlan(env: Env, ticketId: string, hasMessage: bool, intent: string, context: Dict,
                                          expected: seq<string>, answers: seq<Answers>)
    requires !env.useLlm && |answers| >= 12 && expected != []
    ensures var f := RunFrom(env, Start(ticketId, hasMessage, intent, context, expected), answers).s;
            f.resolved ==>
              && f.writes == [Episode(f.ticketId, f.intent, f.dag, true), Template(f.intent, f.dag)]
              && Elements(Flatten(f.dag)) == Elements(expected) - UsableBefore(env, f.calls, f.iteration)
              && (Elements(Flatten(f.dag)) == Elements(expected) <==>
                    UsableBefore(env, f.calls, f.iteration) * Elements(expected) == {})
  {
    hide Safe, Exact, FromPendingTools, DependencyOrdered, MemoryWrites, UsableBefore, RunFrom, Resolved, FailureWrites;
    var c := Start(ticketId, hasMessage, intent, context, expected);
    var f := RunFrom(env, c, answers);
    StartIsSafe(env, ticketId, hasMessage, intent, context, expected);
    StartIsExact(env, ticketId, hasMessage, intent, context, expected);
    EveryRunEnds(env, ticketId, hasMessage, intent, context, expected, answers);
    RunWritesOnce(env, c, answers);
    RunKeepsLastPlan(env, c, answers);
    RunIsBusy(env, c, answers);
    RunKeepsExpected(env, c, answers);
    if f.s.resolved {
      LastPlanStored(env, f);
      RemovingNothing(Elements(expected), UsableBefore(env, f.s.calls, f.s.iteration));
    }
  }

  lemma RemovingNothing(a: set<string>, b: set<string>)
    ensures a - b == a <==> b * a == {}
  {
    if a - b == a {
      assert forall x :: x in b * a ==> x !in a - b;
    } else {
      var x :| x in a && x !in a - b;
      assert x in b * a;
    }
  }

  lemma {:induction false} RunKeepsExpected(env: Env, c: Config, answers: seq<Answers>)
    ensures RunFrom(env, c, answers).s.expected == c.s.expected
    decreases |answers|
  {
    hide Step;
    if answers != [] {
      StepKeepsIdentity(env, c, answers[0]);
      RunKeepsExpected(env, Step(env, c, answers[0]), answers[1..]);
    }
  }

  lemma {:induction false} RunKeepsIdentity(env: Env, c: Config, answers: seq<Answers>)
    ensures var f := RunFrom(env, c, answers).s; f.ticketId == c.s.ticketId && f.intent == c.s.intent
    decreases |answers|
  {
    hide Step;
    if answers != [] {
      StepKeepsIdentity(env, c, answers[0]);
      RunKeepsIdentity(env, Step(env, c, answers[0]), answers[1..]);
    }
  }

  lemma StepKeepsIdentity(env: Env, c: Config, a: Answers)
    ensures SameTicket(Step(env, c, a).s, c.s)
  {
    hide PlannerNode, ExecutorNode, CriticNode, MemoryWrites, Resolved;
    match c.node
    case Planner => PlannerKeepsIdentity(env, c.s, a);
    case Executing => ExecutorKeepsIdentity(env, c.s);
    case Judging => CriticKeepsIdentity(env, c.s, a);
    case _ =>
  }

  predicate SameTicket(s: State, t: State) {
    s.ticketId == t.ticketId && s.intent == t.intent && s.expected == t.expected
  }

  lemma PlannerKeepsIdentity(env: Env, s: State, a: Answers)
    ensures SameTicket(PlannerNode(env, s, a), s)
  {
    hide Plan;
  }

  lemma ExecutorKeepsIdentity(env: Env, s: State)
    ensures SameTicket(ExecutorNode(env, s), s)
  {
    hide ExecTools;
  }

  lemma CriticKeepsIdentity(env: Env, s: State, a: Answers)
    ensures SameTicket(CriticNode(env, s, a), s)
  {
    hide Judge, Remaining, OrKeep;
  }

  lemma LastPlanStored(env: Env, c: Config)
    requires c.node == End && c.s.resolved && Flatten(c.s.dag) != [] && LastPlan(env, c)
    ensures MemoryWrites(env, c.s) == [Episode(c.s.ticketId, c.s.intent, c.s.dag, true), Template(c.s.intent, c.s.dag)]
    ensures Elements(Flatten(c.s.dag)) == Elements(c.s.expected) - UsableBefore(env, c.s.calls, c.s.iteration)
  {
    hide UsableBefore, FromPendingTools, DependencyOrdered;
    var covered := Elements(c.s.expected) - UsableBefore(env, c.s.calls, c.s.iteration);
    FallbackCoversOnce(covered);
    EmptyElements(Flatten(c.s.dag));
    FallbackPasses(covered);
  }

  /** For any LLM: the first entry is the ticket's one episode, a success exactly if the ticket was not escalated. A template
      is stored exactly by a resolved ticket whose last plan passes the order check, and then nothing else is. An
      unresolved ticket stores one failure entry per unusable call, in order, with the ticket's last category, strategy
      and confidence. */
  lemma WhatIsStored(env: Env, ticketId: string, hasMessage: bool, intent: string, context: Dict,
                     expected: seq<string>, answers: seq<Answers>)
    requires |answers| >= 12
    ensures var f := RunFrom(env, Start(ticketId, hasMessage, intent, context, expected), answers).s;
            && (Template(f.intent, f.dag) in f.writes <==> f.resolved && DependencyOrdered(f.dag))
            && |f.writes| >= 1 && f.writes[0] == Episode(ticketId, intent, f.dag, !f.escalate)
            && (forall k :: 1 <= k < |f.writes| ==> !f.writes[k].Episode?)
            && (f.resolved ==> |f.writes| == (if DependencyOrdered(f.dag) then 2 else 1)
                               && forall w :: w in f.writes ==> !w.ToolFailure?)
            && (!f.resolved ==> var failed := Unusable(env, f.calls);
                  && |f.writes| == 1 + |failed| && FailureTools(f.writes) == FailedIn(env, f.calls)
                  && forall j :: 0 <= j < |failed| ==>
                       Recorded(f.writes[1 + j], failed[j], f.category, f.strategy, f.confidence))
  {
    hide Safe, DependencyOrdered, FailureWrites, RunFrom, Unusable, Recorded, FailedIn, Resolved;
    var c := Start(ticketId, hasMessage, intent, context, expected);
    var f := RunFrom(env, c, answers).s;
    EveryRunEnds(env, ticketId, hasMessage, intent, context, expected, answers);
    RunWritesOnce(env, c, answers);
    RunKeepsIdentity(env, c, answers);
    FailuresAreRecorded(env, f.calls, f);
    FailuresInOrder(env, f.calls, f);
    UnusableCounts(env, f.calls);
    if !f.resolved {
      var failures := FailureWrites(env, f.calls, f);
      assert f.writes == [Episode(ticketId, intent, f.dag, false)] + failures;
      forall k | 1 <= k < |f.writes| ensures f.writes[k].ToolFailure? { assert f.writes[k] in failures; }
      assert forall w :: w in f.writes <==> w == Episode(f.ticketId, f.intent, f.dag, false) || w in failures;
      assert FailureTools(f.writes) == FailureTools(failures);
    }
  }
}
