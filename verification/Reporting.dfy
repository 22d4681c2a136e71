/** What a verdict and a finished ticket report, stated without the code that computes it. */
module Reporting {
  import Values
  import opened Records
  import opened Ordering
  import opened Dag
  import opened Executor
  import opened Critic
  import opened Pipeline
  import opened Safety

  // ---- one verdict ----

  lemma {:induction false} FirstOfIsFirst(results: seq<Record>, tool: string) returns (i: nat)
    requires exists c :: c in results && c.tool == tool
    ensures i < |results| && results[i] == FirstOf(results, tool) && results[i].tool == tool
    ensures forall j :: 0 <= j < i ==> results[j].tool != tool
  {
    if results[0].tool == tool {
      i := 0;
    } else {
      i := FirstOfIsFirst(results[1..], tool);
      i := i + 1;
    }
  }

  predicate Applies(h: FailureHit, tool: string, category: string) {
    h.tool == tool && h.failureType == category
  }

  lemma {:induction false} FirstHitIsFirst(hits: seq<FailureHit>, tool: string, category: string) returns (k: nat)
    ensures FirstHit(hits, tool, category).None? <==> forall h :: h in hits ==> !Applies(h, tool, category)
    ensures FirstHit(hits, tool, category).Some? ==>
              && k < |hits| && hits[k] == FirstHit(hits, tool, category).value && Applies(hits[k], tool, category)
              && forall j :: 0 <= j < k ==> !Applies(hits[j], tool, category)
  {
    k := 0;
    if hits != [] && !Applies(hits[0], tool, category) {
      k := FirstHitIsFirst(hits[1..], tool, category);
      assert forall h :: h in hits <==> h == hits[0] || h in hits[1..];
      k := k + 1;
    }
  }

  /** The tool a verdict speaks about: the least of those with an unusable record. */
  lemma FirstFailure(env: Env, results: seq<Record>)
    requires FailedIn(env, results) != {}
    ensures IsLeast(Sorted(FailedIn(env, results))[0], FailedIn(env, results))
  {
    var failed := FailedIn(env, results);
    SortedAscends(failed);
    forall x | x in failed ensures x == Sorted(failed)[0] || Less(Sorted(failed)[0], x) { assert x in Sorted(failed); }
  }

  /** A failed iteration is judged by the least failed tool and the first record of it, here `i`. If a stored failure
      of that tool and category exists, the first such entry `k` decides, without the LLM, and the verdict names exactly
      the failed tools. */
  lemma VerdictFromMemory(env: Env, results: seq<Record>, hits: seq<FailureHit>, reply: Values.Option<CriticReply>)
    returns (i: nat, k: nat)
    requires FailedIn(env, results) != {}
    ensures i < |results| && IsLeast(results[i].tool, FailedIn(env, results))
    ensures forall j :: 0 <= j < i ==> results[j].tool != results[i].tool
    ensures var v, category := Judge(env, results, hits, reply), ClassifyFailure(results[i]);
            && (v.memoryHit <==> exists h :: h in hits && Applies(h, results[i].tool, category))
            && (v.memoryHit ==>
                  && k < |hits| && Applies(hits[k], results[i].tool, category)
                  && (forall j :: 0 <= j < k ==> !Applies(hits[j], results[i].tool, category))
                  && !v.resolved && Elements(v.failedTools) == FailedIn(env, results)
                  && v.category == category && v.confidence == hits[k].confidence
                  && v.strategy == (if hits[k].recovery == "" then hits[k].fixApplied else hits[k].recovery))
            && (!v.memoryHit && (!env.useLlm || reply.None?) ==>
                  && v == CriticOutput(false, v.failedTools, false, category, 0.5, "retry")
                  && Elements(v.failedTools) == FailedIn(env, results) && Ascending(v.failedTools))
  {
    FirstFailure(env, results);
    var tool := Sorted(FailedIn(env, results))[0];
    i := FirstOfIsFirst(results, tool);
    k := FirstHitIsFirst(hits, tool, ClassifyFailure(results[i]));
    SortedAscends(FailedIn(env, results));
  }

  /** An iteration is called resolved only if nothing in it failed, or an LLM says so and no stored failure applies. When
      nothing failed, neither memory nor the LLM has a say. */
  lemma ResolvedNeedsAWord(env: Env, results: seq<Record>, hits: seq<FailureHit>, reply: Values.Option<CriticReply>)
    ensures var v := Judge(env, results, hits, reply);
            && ((forall r :: r in results ==> env.usable(r)) ==>
                  v == CriticOutput(true, [], false, "", 1.0, ""))
            && (v.resolved <==> (forall r :: r in results ==> env.usable(r)) ||
                                (!v.memoryHit && env.useLlm && reply.Some? && reply.value.resolved))
  {
    if forall r :: r in results ==> env.usable(r) { assert FailedIn(env, results) == {}; }
    else {
      var r :| r in results && !env.usable(r);
      assert r.tool in FailedIn(env, results);
    }
  }

  /** A call or an answer that fails leaves the verdict the critic gives without an LLM. */
  lemma FailedCallIsNoLlm(env: Env, results: seq<Record>, hits: seq<FailureHit>)
    ensures Judge(env, results, hits, Values.None) == Judge(env.(useLlm := false), results, hits, Values.None)
  {
    assert FailedIn(env, results) == FailedIn(env.(useLlm := false), results);
  }

  lemma {:induction false} FirstNoteIsFirst(notes: seq<FailureNote>, tool: string) returns (k: nat)
    ensures FirstNote(notes, tool).None? <==> forall n :: n in notes ==> n.tool != tool
    ensures FirstNote(notes, tool).Some? ==>
              && k < |notes| && notes[k] == FirstNote(notes, tool).value && notes[k].tool == tool
              && forall j :: 0 <= j < k ==> notes[j].tool != tool
  {
    k := 0;
    if notes != [] && notes[0].tool != tool {
      k := FirstNoteIsFirst(notes[1..], tool);
      assert forall n :: n in notes <==> n == notes[0] || n in notes[1..];
      k := k + 1;
    }
  }

  /** Without a stored failure to go by, the LLM's verdict decides whether the iteration counts as resolved and, unless it
      names none, which tools failed. Its first note on the least failed tool, here `k`, gives category, confidence and
      strategy, each unless it is absent; with no such note they are the record's category, 0.8 and "retry". */
  lemma VerdictFromLlm(env: Env, results: seq<Record>, hits: seq<FailureHit>, reply: CriticReply) returns (i: nat, k: nat)
    requires FailedIn(env, results) != {} && env.useLlm && !Judge(env, results, hits, Values.Some(reply)).memoryHit
    ensures i < |results| && IsLeast(results[i].tool, FailedIn(env, results))
    ensures forall j :: 0 <= j < i ==> results[j].tool != results[i].tool
    ensures var v, category := Judge(env, results, hits, Values.Some(reply)), ClassifyFailure(results[i]);
            && v.resolved == reply.resolved
            && Elements(v.failedTools) == (if reply.failedTools == [] then FailedIn(env, results) else Elements(reply.failedTools))
            && Ascending(v.failedTools)
            && ((forall n :: n in reply.failures ==> n.tool != results[i].tool) ==>
                  v.category == category && v.confidence == 0.8 && v.strategy == "retry")
            && ((exists n :: n in reply.failures && n.tool == results[i].tool) ==>
                  && k < |reply.failures| && reply.failures[k].tool == results[i].tool
                  && (forall j :: 0 <= j < k ==> reply.failures[j].tool != results[i].tool)
                  && v.category == OrElse(reply.failures[k].category, category)
                  && v.confidence == OrElse(reply.failures[k].confidence, 0.8)
                  && v.strategy == OrElse(reply.failures[k].strategy, "retry"))
  {
    FirstFailure(env, results);
    var tool := Sorted(FailedIn(env, results))[0];
    i := FirstOfIsFirst(results, tool);
    k := FirstNoteIsFirst(reply.failures, tool);
    SortedAscends(if reply.failedTools == [] then FailedIn(env, results) else Elements(reply.failedTools));
  }

  /** The record classified is a failed one unless the iteration called its tool more than once, which only an LLM plan
      can do. */
  lemma ClassifiedRecordFailed(env: Env, results: seq<Record>, i: nat)
    requires i < |results| && results[i].tool in FailedIn(env, results)
    requires forall a, b :: 0 <= a < b < |results| ==> results[a].tool != results[b].tool
    ensures !env.usable(results[i])
  {
    var r :| r in results && !env.usable(r) && r.tool == results[i].tool;
    var j :| 0 <= j < |results| && results[j] == r;
  }

  // ---- a whole run ----

  /** The planner steps, the unresolved verdicts and the memory hits of a run. */
  function Planned(env: Env, c: Config, answers: seq<Answers>): nat
    decreases |answers|
  {
    if answers == [] then 0
    else (if c.node == Planner then 1 else 0) + Planned(env, Step(env, c, answers[0]), answers[1..])
  }

  function VerdictAt(env: Env, s: State, a: Answers): CriticOutput {
    Judge(env, OfIteration(s.calls, s.iteration), a.hits, a.criticReply)
  }

  function Rejected(env: Env, c: Config, answers: seq<Answers>): nat
    decreases |answers|
  {
    if answers == [] then 0
    else (if c.node == Judging && !VerdictAt(env, c.s, answers[0]).resolved then 1 else 0)
         + Rejected(env, Step(env, c, answers[0]), answers[1..])
  }

  /** The verdicts of a run, in order, and the distances its plans were retrieved at. */
  function Verdicts(env: Env, c: Config, answers: seq<Answers>): seq<CriticOutput>
    decreases |answers|
  {
    if answers == [] then []
    else (if c.node == Judging then [VerdictAt(env, c.s, answers[0])] else [])
         + Verdicts(env, Step(env, c, answers[0]), answers[1..])
  }

  function Distances(env: Env, c: Config, answers: seq<Answers>): seq<Values.Option<real>>
    decreases |answers|
  {
    if answers == [] then []
    else (if c.node == Planner then [answers[0].distance] else []) + Distances(env, Step(env, c, answers[0]), answers[1..])
  }

  function LastOr<T>(s: seq<T>, default: T): T {
    if s == [] then default else s[|s| - 1]
  }

  /** The latest text that is not empty, if any is. */
  function LatestText(texts: seq<string>): string {
    if texts == [] then ""
    else if texts[|texts| - 1] != "" then texts[|texts| - 1] else LatestText(texts[..|texts| - 1])
  }

  function Categories(vs: seq<CriticOutput>): seq<string> {
    if vs == [] then [] else [vs[0].category] + Categories(vs[1..])
  }

  function Strategies(vs: seq<CriticOutput>): seq<string> {
    if vs == [] then [] else [vs[0].strategy] + Strategies(vs[1..])
  }

  /** A text that gives way to the next non-empty one. */
  lemma {:induction false} LatestOfTwo(a: string, b: string, rest: seq<string>)
    ensures LatestText([if b != "" then b else a] + rest) == LatestText([a] + ([b] + rest))
    decreases |rest|
  {
    var l, r := [if b != "" then b else a] + rest, [a] + ([b] + rest);
    if rest == [] {
      assert r[..|r| - 1] == [a] && [a][..0] == [];
      assert l == [if b != "" then b else a] && l[..0] == [];
    } else {
      var n := |rest| - 1;
      assert l[..|l| - 1] == [if b != "" then b else a] + rest[..n];
      assert r[..|r| - 1] == [a] + ([b] + rest[..n]);
      LatestOfTwo(a, b, rest[..n]);
    }
  }

  lemma LatestHead(texts: seq<string>)
    ensures LatestText([""] + texts) == LatestText(texts)
    decreases |texts|
  {
    var all := [""] + texts;
    if texts == [] {
      assert all[..0] == [];
    } else {
      assert all[..|all| - 1] == [""] + texts[..|texts| - 1];
      LatestHead(texts[..|texts| - 1]);
    }
  }

  /** What one step does to the fields a run reports last. */
  lemma StepReports(env: Env, c: Config, a: Answers)
    ensures var s, t := c.s, Step(env, c, a).s;
            && (c.node != Judging ==> t.category == s.category && t.strategy == s.strategy && t.confidence == s.confidence)
            && (c.node == Judging ==> var v := VerdictAt(env, s, a);
                  && t.confidence == v.confidence
                  && t.category == (if v.category != "" then v.category else s.category)
                  && t.strategy == (if v.strategy != "" then v.strategy else s.strategy))
            && t.distance == if c.node == Planner then a.distance else s.distance
  {
    hide PlannerNode, ExecutorNode, CriticNode, VerdictAt, MemoryWrites, Resolved;
    match c.node
    case Planner => PlannerReports(env, c.s, a);
    case Executing => ExecutorReports(env, c.s);
    case Judging => CriticReports(env, c.s, a);
    case _ =>
  }

  lemma TextsOf(v: CriticOutput, rest: seq<CriticOutput>)
    ensures Categories([v] + rest) == [v.category] + Categories(rest)
    ensures Strategies([v] + rest) == [v.strategy] + Strategies(rest)
  {
    assert ([v] + rest)[1..] == rest;
  }

  /** What the first step adds to what a run says. */
  lemma RunBegins(env: Env, c: Config, answers: seq<Answers>)
    requires answers != []
    ensures var c', rest := Step(env, c, answers[0]), answers[1..];
            && RunFrom(env, c, answers) == RunFrom(env, c', rest)
            && Verdicts(env, c, answers) ==
               (if c.node == Judging then [VerdictAt(env, c.s, answers[0])] else []) + Verdicts(env, c', rest)
            && LastOr(Distances(env, c, answers), c.s.distance) ==
               LastOr(Distances(env, c', rest), if c.node == Planner then answers[0].distance else c.s.distance)
  {
    hide Step, VerdictAt;
  }

  /** `f` reports what the verdicts `vs` leave of what `s` reports. */
  predicate Reports(f: State, s: State, vs: seq<CriticOutput>) {
    && f.confidence == (if vs == [] then s.confidence else vs[|vs| - 1].confidence)
    && f.category == LatestText([s.category] + Categories(vs))
    && f.strategy == LatestText([s.strategy] + Strategies(vs))
  }

  lemma ReportsNothingNew(f: State, s: State, t: State, vs: seq<CriticOutput>)
    requires Reports(f, t, vs) && t.confidence == s.confidence && t.category == s.category && t.strategy == s.strategy
    ensures Reports(f, s, vs)
  {
  }

  lemma ReportsVerdict(f: State, s: State, t: State, v: CriticOutput, rest: seq<CriticOutput>)
    requires Reports(f, t, rest) && t.confidence == v.confidence
    requires t.category == (if v.category != "" then v.category else s.category)
    requires t.strategy == (if v.strategy != "" then v.strategy else s.strategy)
    ensures Reports(f, s, [v] + rest)
  {
    hide LatestText, Categories, Strategies;
    LatestOfTwo(s.category, v.category, Categories(rest));
    LatestOfTwo(s.strategy, v.strategy, Strategies(rest));
    TextsOf(v, rest);
  }

  lemma ReportsItself(s: State)
    ensures Reports(s, s, [])
  {
    OneText(s.category);
    OneText(s.strategy);
  }

  lemma {:induction false} LastReports(env: Env, c: Config, answers: seq<Answers>)
    ensures var f := RunFrom(env, c, answers).s;
            && Reports(f, c.s, Verdicts(env, c, answers))
            && f.distance == LastOr(Distances(env, c, answers), c.s.distance)
    decreases |answers|
  {
    if answers == [] {
      ReportsItself(c.s);
    } else {
      hide Step, RunFrom, Verdicts, Distances, VerdictAt, LastOr, Reports;
      var c' := Step(env, c, answers[0]);
      StepReports(env, c, answers[0]);
      RunBegins(env, c, answers);
      LastReports(env, c', answers[1..]);
      var f, rest := RunFrom(env, c, answers).s, Verdicts(env, c', answers[1..]);
      if c.node == Judging {
        ReportsVerdict(f, c.s, c'.s, VerdictAt(env, c.s, answers[0]), rest);
      } else {
        assert [] + rest == rest;
        ReportsNothingNew(f, c.s, c'.s, rest);
      }
    }
  }

  lemma OneText(text: string)
    ensures [text] + [] == [text] && LatestText([text] + []) == text
  {
    assert [text][..0] == [];
  }

  predicate MemoryUsed(env: Env, c: Config, answers: seq<Answers>)
    decreases |answers|
  {
    answers != [] &&
    ((c.node == Planner && answers[0].templates) || (c.node == Judging && VerdictAt(env, c.s, answers[0]).memoryHit)
     || MemoryUsed(env, Step(env, c, answers[0]), answers[1..]))
  }

  /** For any LLM: the counters and the memory flag of a run are sums over its steps, and there are never more replans
      than iterations. */
  lemma {:induction false} CountersSumUp(env: Env, c: Config, answers: seq<Answers>)
    ensures var f := RunFrom(env, c, answers).s;
            && f.iteration == c.s.iteration + Planned(env, c, answers)
            && f.replans == c.s.replans + Rejected(env, c, answers)
            && (f.memoryHit <==> c.s.memoryHit || MemoryUsed(env, c, answers))
    decreases |answers|
  {
    hide Step, VerdictAt;
    if answers != [] {
      StepCounts(env, c, answers[0]);
      CountersSumUp(env, Step(env, c, answers[0]), answers[1..]);
    }
  }

  lemma StepCounts(env: Env, c: Config, a: Answers)
    ensures var s, t := c.s, Step(env, c, a).s;
            && t.iteration == s.iteration + (if c.node == Planner then 1 else 0)
            && t.replans == s.replans + (if c.node == Judging && !VerdictAt(env, s, a).resolved then 1 else 0)
            && (t.memoryHit <==> s.memoryHit || (c.node == Planner && a.templates)
                                 || (c.node == Judging && VerdictAt(env, s, a).memoryHit))
  {
    hide PlannerNode, ExecutorNode, CriticNode, VerdictAt, MemoryWrites, Resolved;
    match c.node
    case Planner => PlannerReports(env, c.s, a);
    case Executing => ExecutorReports(env, c.s);
    case Judging => CriticReports(env, c.s, a);
    case _ =>
  }

  lemma PlannerReports(env: Env, s: State, a: Answers)
    ensures var t := PlannerNode(env, s, a);
            && t.iteration == s.iteration + 1 && t.replans == s.replans && (t.memoryHit <==> s.memoryHit || a.templates)
            && t.category == s.category && t.strategy == s.strategy && t.confidence == s.confidence && t.distance == a.distance
  {
    hide Plan;
  }

  lemma ExecutorReports(env: Env, s: State)
    ensures var t := ExecutorNode(env, s);
            && t.iteration == s.iteration && t.replans == s.replans && t.memoryHit == s.memoryHit
            && t.category == s.category && t.strategy == s.strategy && t.confidence == s.confidence && t.distance == s.distance
  {
    hide ExecTools;
  }

  lemma CriticReports(env: Env, s: State, a: Answers)
    ensures var t, v := CriticNode(env, s, a), VerdictAt(env, s, a);
            && t.iteration == s.iteration && t.replans == s.replans + (if v.resolved then 0 else 1)
            && (t.memoryHit <==> s.memoryHit || v.memoryHit) && t.confidence == v.confidence && t.distance == s.distance
            && t.category == (if v.category != "" then v.category else s.category)
            && t.strategy == (if v.strategy != "" then v.strategy else s.strategy)
  {
    hide Judge, Remaining;
  }

  predicate FewReplans(c: Config) {
    c.s.replans <= c.s.iteration && (c.node == Executing || c.node == Judging ==> c.s.replans < c.s.iteration)
  }

  lemma {:induction false} RunHasFewReplans(env: Env, c: Config, answers: seq<Answers>)
    requires FewReplans(c)
    ensures FewReplans(RunFrom(env, c, answers))
    decreases |answers|
  {
    hide Judge, Plan, MemoryWrites, Remaining, ExecTools;
    if answers != [] { RunHasFewReplans(env, Step(env, c, answers[0]), answers[1..]); }
  }

  /** For any LLM a finished ticket reports as many iterations as it made plans, as many replans as verdicts against
      it, and a memory hit exactly if a plan or a verdict used memory. Its confidence is the last verdict's, its category and
      strategy are the latest a verdict gave, and its distance is that of the last plan. */
  lemma FinishedTicketReports(env: Env, ticketId: string, hasMessage: bool, intent: string, context: Values.Dict,
                              expected: seq<string>, answers: seq<Answers>)
    requires |answers| >= 12
    ensures var c := Start(ticketId, hasMessage, intent, context, expected);
            var f := RunFrom(env, c, answers).s;
            && f.iteration == Planned(env, c, answers) && f.replans == Rejected(env, c, answers)
            && f.replans <= f.iteration <= MAX_ITERATIONS
            && (f.memoryHit <==> MemoryUsed(env, c, answers))
            && var vs := Verdicts(env, c, answers);
            && f.confidence == (if vs == [] then 0.5 else vs[|vs| - 1].confidence)
            && f.category == LatestText(Categories(vs)) && f.strategy == LatestText(Strategies(vs))
            && f.distance == LastOr(Distances(env, c, answers), Values.None)
  {
    hide RunFrom, Planned, Rejected, MemoryUsed, Verdicts, Distances, LatestText;
    var c := Start(ticketId, hasMessage, intent, context, expected);
    LastReports(env, c, answers);
    LatestHead(Categories(Verdicts(env, c, answers)));
    LatestHead(Strategies(Verdicts(env, c, answers)));
    CountersSumUp(env, c, answers);
    RunHasFewReplans(env, c, answers);
    EveryRunEnds(env, ticketId, hasMessage, intent, context, expected, answers);
  }
}
