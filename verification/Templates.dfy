/** Which tools the template of a resolved ticket leaves out, with the LLM off. */
module Templates {
  import opened Values
  import opened Records
  import opened Ordering
  import opened Dag
  import opened Executor
  import opened Critic
  import opened Pipeline
  import opened Safety
  import opened Accounting
  import opened MemoryWriteback
  import opened Resolution
  import opened Worlds

  /** The tools usable before the current iteration are those that needed fewer. */
  predicate BeforeNeeded(env: Env, c: Config, f: string -> nat) {
    c.node == Judging || Finished(c.node) ==>
      forall t :: t in c.s.expected ==> (t in UsableBefore(env, c.s.calls, c.s.iteration) <==> Needed(f, t) < c.s.iteration)
  }

  lemma ExecutorSetsBefore(env: Env, c: Config, a: Answers, f: string -> nat)
    requires Safe(env, c) && c.node == Executing && Called(c, f) && AllFailFirst(env, c.s.expected, c.s.calls, f)
    ensures BeforeNeeded(env, Step(env, c, a), f)
  {
    hide ExecTools, FailsFirst, CallsTo, CallsAfter, Needed, Resolved, DependencySafe, Accounted, VerdictSafe;
    var t := Trace(c.s.context, c.s.calls);
    ExecToolsExtends(env, c.s.iteration, Flatten(c.s.dag), t);
    UsableBeforeRound(env, c.s.iteration, t, ExecTools(env, c.s.iteration, Flatten(c.s.dag), t));
    forall x | x in c.s.expected ensures x in UsableTools(env, c.s.calls) <==> Needed(f, x) < c.s.iteration {
      UsableAfterFailures(env, c.s.calls, x, f(x));
      UsableWhenNeeded(f, x, c.s.iteration - 1);
    }
  }

  lemma StepKeepsBefore(env: Env, c: Config, a: Answers, f: string -> nat)
    requires Safe(env, c) && Called(c, f) && AllFailFirst(env, c.s.expected, c.s.calls, f) && BeforeNeeded(env, c, f)
    ensures BeforeNeeded(env, Step(env, c, a), f)
  {
    hide Judge, Plan, MemoryWrites, Remaining, ExecTools, FailsFirst, CallsTo, CallsAfter, Needed, Resolved, Safe, UsableBefore;
    if c.node == Executing { ExecutorSetsBefore(env, c, a, f); }
  }

  lemma {:induction false} RunKeepsBefore(env: Env, c: Config, answers: seq<Answers>, f: string -> nat)
    requires !env.useLlm && Safe(env, c) && Exact(env, c) && Closed(Elements(c.s.expected))
    requires Called(c, f) && BeforeNeeded(env, c, f) && AllFailFirst(env, c.s.expected, RunFrom(env, c, answers).s.calls, f)
    ensures BeforeNeeded(env, RunFrom(env, c, answers), f)
    decreases |answers|
  {
    hide Step, Safe, Exact, Called, BeforeNeeded, AllFailFirst, Closed, IsPrefix;
    if answers != [] {
      var c' := Step(env, c, answers[0]);
      var d := RunFrom(env, c', answers[1..]);
      StepKeepsSafe(env, c, answers[0]);
      StepKeepsExact(env, c, answers[0]);
      StepExtendsCalls(env, c, answers[0]);
      RunExtendsCalls(env, c', answers[1..]);
      PrefixTransitive(c.s.calls, c'.s.calls, d.s.calls);
      AllFailFirstPrefix(env, c.s.expected, c.s.calls, d.s.calls, f);
      AllFailFirstPrefix(env, c.s.expected, c'.s.calls, d.s.calls, f);
      StepCounts(env, c, answers[0], f);
      StepKeepsBefore(env, c, answers[0], f);
      RunKeepsBefore(env, c', answers[1..], f);
    }
  }

  /** The template of a resolved ticket lists exactly the tools that became usable in the last iteration. So it covers
      the ticket exactly if all its tools did. */
  lemma TemplateIsTheLastIteration(env: Env, ticketId: string, hasMessage: bool, intent: string, context: Dict,
                                   expected: seq<string>, answers: seq<Answers>, f: string -> nat)
    requires !env.useLlm && |answers| >= 12 && Closed(Elements(expected)) && expected != []
    requires AllFailFirst(env, expected, RunFrom(env, Start(ticketId, hasMessage, intent, context, expected), answers).s.calls, f)
    ensures var d := RunFrom(env, Start(ticketId, hasMessage, intent, context, expected), answers).s;
            d.resolved ==>
              && Template(d.intent, d.dag) in d.writes
              && (forall t :: t in Elements(Flatten(d.dag)) <==> t in expected && Needed(f, t) == d.iteration)
              && (Elements(Flatten(d.dag)) == Elements(expected) <==> forall t :: t in expected ==> Needed(f, t) == d.iteration)
  {
    hide RunFrom, Safe, Exact, FailsFirst, UsableBefore, CallsTo, CallsAfter, Needed, Closed, Flatten;
    var c := Start(ticketId, hasMessage, intent, context, expected);
    StartIsSafe(env, ticketId, hasMessage, intent, context, expected);
    StartIsExact(env, ticketId, hasMessage, intent, context, expected);
    StartCounts(env, ticketId, hasMessage, intent, context, expected, f);
    EveryRunEnds(env, ticketId, hasMessage, intent, context, expected, answers);
    RunExtendsCalls(env, c, answers);
    RunKeepsBefore(env, c, answers, f);
    ResolvesInTime(env, ticketId, hasMessage, intent, context, expected, answers, f);
    ResolvedTicketsStoreTheirLastPlan(env, ticketId, hasMessage, intent, context, expected, answers);
    var d := RunFrom(env, c, answers).s;
    if d.resolved {
      assert forall t :: t in Elements(Flatten(d.dag)) <==> t in expected && t !in UsableBefore(env, d.calls, d.iteration);
    }
  }

  const ONE_LOOKUP_FAILS: string -> nat := t => if t == "order_lookup" then 1 else 0

  lemma OrderStatusNeeds()
    ensures Closed(Elements(IntentTools("order_status")))
    ensures IntentTools("order_status") == ["crm", "order_lookup"]
    ensures Needed(ONE_LOOKUP_FAILS, "crm") == 1 && Needed(ONE_LOOKUP_FAILS, "order_lookup") == 2
  {
    assert ["crm", "order_lookup"][0] == "crm" && ["crm", "order_lookup"][1] == "order_lookup";
  }

  /** An order-status ticket whose first lookup fails: it resolves in the second iteration, and the template it stores
      does not list the customer lookup. */
  lemma TemplateMissesATool(ticketId: string, hasMessage: bool, context: Dict, answers: seq<Answers>)
    requires Identified(context) && |answers| >= 12
    ensures var env := World(false, FirstCalls(ONE_LOOKUP_FAILS), NO_NUMERAL);
            var expected := IntentTools("order_status");
            var d := RunFrom(env, Start(ticketId, hasMessage, "order_status", context, expected), answers).s;
            && d.resolved && d.iteration == 2 && Template(d.intent, d.dag) in d.writes
            && "crm" in expected && "crm" !in Flatten(d.dag) && Elements(Flatten(d.dag)) != Elements(expected)
  {
    hide RunFrom, FailsFirst, Needed, Closed, Flatten, World, IntentTools, CallsTo, CallsAfter;
    var env := World(false, FirstCalls(ONE_LOOKUP_FAILS), NO_NUMERAL);
    var expected := IntentTools("order_status");
    OrderStatusNeeds();
    FailuresAreArbitrary(false, ONE_LOOKUP_FAILS, NO_NUMERAL, ticketId, hasMessage, "order_status", context, expected, answers);
    ResolvesInTime(env, ticketId, hasMessage, "order_status", context, expected, answers, ONE_LOOKUP_FAILS);
    TemplateIsTheLastIteration(env, ticketId, hasMessage, "order_status", context, expected, answers, ONE_LOOKUP_FAILS);
    assert expected[0] == "crm" && expected[1] == "order_lookup";
    var d := RunFrom(env, Start(ticketId, hasMessage, "order_status", context, expected), answers).s;
    assert "crm" !in Elements(Flatten(d.dag));
  }
}
