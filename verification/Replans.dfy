/** The replan count of a finished ticket is exact for dependency-closed tool sets, and only for them. */
module Replans {
  import opened Values
  import opened Records
  import opened Ordering
  import opened Dag
  import opened Executor
  import opened Critic
  import opened Pipeline
  import opened Safety
  import opened Accounting
  import opened Provenance
  import opened Resolution
  import opened Worlds

  /** In every production world without the LLM, a resolved ticket has replanned once less than it has iterated, an
      unresolved one three times. */
  ghost predicate ReplansAreCounted(expected: seq<string>) {
    forall env: Env, ticketId, hasMessage, intent, context, answers ::
      IsProduction(env) && !env.useLlm && |answers| >= 12 ==>
      var f := RunFrom(env, Start(ticketId, hasMessage, intent, context, expected), answers).s;
      (f.resolved ==> f.replans == f.iteration - 1) && (!f.resolved ==> f.replans == 3)
  }

  lemma FlawlessVerdict(env: Env, c: Config, a: Answers)
    requires c.node == Judging && forall r :: r in c.s.calls ==> env.usable(r)
    ensures Step(env, c, a).s.replans == c.s.replans
  {
    assert FailedIn(env, OfIteration(c.s.calls, c.s.iteration)) == {};
  }

  lemma {:induction false} FlawlessRunNeverReplans(env: Env, c: Config, answers: seq<Answers>)
    requires forall r :: r in RunFrom(env, c, answers).s.calls ==> env.usable(r)
    ensures RunFrom(env, c, answers).s.replans == c.s.replans
    decreases |answers|
  {
    hide Judge, Plan, MemoryWrites, Remaining, ExecTools;
    if answers != [] {
      var c' := Step(env, c, answers[0]);
      if c.node == Judging {
        RunExtendsCalls(env, c', answers[1..]);
        PrefixMembers(c.s.calls, RunFrom(env, c', answers[1..]).s.calls);
        FlawlessVerdict(env, c, answers[0]);
      }
      FlawlessRunNeverReplans(env, c', answers[1..]);
    }
  }

  lemma PrefixMembers(small: seq<Record>, large: seq<Record>)
    requires IsPrefix(small, large)
    ensures forall r :: r in small ==> r in large
  {
    CallsSplit(Trace(map[], small), Trace(map[], large));
  }

  /** Tools that answer every call as asked leave a ticket with a refund but no lookup escalated after three iterations
      without a single replan. */
  lemma UnclosedNeverReplans(parse: string -> Option<real>, context: Dict, expected: seq<string>, answers: seq<Answers>)
    requires !Closed(Elements(expected)) && |answers| >= 12 && Identified(context)
    ensures var env := World(false, NEVER, parse);
            var f := RunFrom(env, Start("", true, "", context, expected), answers).s;
            IsProduction(env) && !env.useLlm && !f.resolved && f.escalate && f.iteration == 3 && f.replans == 0
  {
    hide RunFrom, Closed, AsTold;
    var env := World(false, NEVER, parse);
    var c := Start("", true, "", context, expected);
    ProductionIsProduction(false, ToolsOf(NEVER), parse);
    NothingToldYet(env, NEVER);
    RunsAsTold(false, NEVER, parse, c, answers);
    AllAreUsable(env, RunFrom(env, c, answers).s.calls);
    UnclosedNeverResolves(env, "", true, "", context, expected, answers);
    FlawlessRunNeverReplans(env, c, answers);
  }

  lemma AllAreUsable(env: Env, calls: seq<Record>)
    requires AsTold(env, NEVER, calls)
    ensures forall r :: r in calls ==> env.usable(r)
  {
  }

  /** The replan count says how the ticket went, in every production world, exactly if the tool set is closed. */
  lemma ReplanCountNeedsClosed(expected: seq<string>)
    ensures ReplansAreCounted(expected) <==> Closed(Elements(expected))
  {
    hide RunFrom, Closed, World, NoRepeat, OncePerIteration;
    if Closed(Elements(expected)) {
      forall env: Env, ticketId, hasMessage, intent, context, answers: seq<Answers>
        | IsProduction(env) && !env.useLlm && |answers| >= 12
        ensures var f := RunFrom(env, Start(ticketId, hasMessage, intent, context, expected), answers).s;
                (f.resolved ==> f.replans == f.iteration - 1) && (!f.resolved ==> f.replans == 3)
      {
        OfflineAccounting(env, ticketId, hasMessage, intent, context, expected, answers);
      }
    } else {
      var answers := seq(12, _ => Answers(false, None, None, [], None));
      assert Identified(map[]);
      UnclosedNeverReplans(NO_NUMERAL, map[], expected, answers);
    }
  }
}
