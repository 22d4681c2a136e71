/** Runs of a refund request whose first lookup is rejected but leaves its answer in the context. */
module Redirection {
  import opened Values
  import opened Records
  import opened Ordering
  import opened Dag
  import opened Executor
  import opened Critic
  import opened Pipeline
  import opened Safety
  import opened Accounting
  import opened Provenance
  import opened OrderDrift
  import opened Resolution
  import opened Worlds

  /** What the first lookup of a ticket and the later ones answer, the order the ticket names and the one the context
      holds after a lookup. */
  datatype Script = Script(first: Dict, later: Dict, order: string, held: string)

  function LookupRecord(asked: string, data: Dict, iteration: nat): Record {
    Record("order_lookup", map["order_id" := Str(asked)], true, None, Some(data), iteration)
  }

  /** The first answer is rejected, the later ones are accepted, and all name the order held. */
  ghost predicate Plays(sc: Script) {
    && sc.order != "" && sc.held != ""
    && forall iteration: nat ::
         && !IsUsable(LookupRecord(sc.order, sc.first, iteration)) && IsUsable(LookupRecord(sc.held, sc.later, iteration))
         && GetOr(UpdateContext(NO_NUMERAL, LookupRecord(sc.order, sc.first, iteration)), "order_id", Null) == Str(sc.held)
         && GetOr(UpdateContext(NO_NUMERAL, LookupRecord(sc.held, sc.later, iteration)), "order_id", Null) == Str(sc.held)
  }

  function Answer(sc: Script, log: seq<Record>): Dict {
    if CallsTo(log, "order_lookup") == 0 then sc.first else sc.later
  }

  /** Lookups follow the script; everything else goes as asked. */
  function Scripted(sc: Script): (seq<Record>, string, Dict) -> ToolResult {
    (log: seq<Record>, tool: string, params: Dict) =>
      ToolResult(true, Some(if tool == "order_lookup" then Answer(sc, log) else GoodData(tool, params)), None, None)
  }

  function Stage(sc: Script): Env {
    Production(false, Scripted(sc), NO_NUMERAL)
  }

  lemma StageIsProduction(sc: Script)
    ensures IsProduction(Stage(sc)) && !Stage(sc).useLlm
  {
    ProductionIsProduction(false, Scripted(sc), NO_NUMERAL);
  }

  /** The order in the context after the given calls. */
  function Held(sc: Script, calls: seq<Record>): string {
    if CallsTo(calls, "order_lookup") == 0 then sc.order else sc.held
  }

  /** A call of such a run: every one is usable but the first lookup, and a lookup brings the scripted answer. */
  predicate FollowsScript(sc: Script, before: seq<Record>, r: Record) {
    && (IsUsable(r) <==> r.tool != "order_lookup" || CallsTo(before, "order_lookup") >= 1)
    && (r.tool == "order_lookup" ==> r.success && r.data == Some(Answer(sc, before)))
    && (r.tool == "refund" ==> Get(r.params, "order_id") == Str(Held(sc, before)))
  }

  predicate Misled(sc: Script, t: Trace) {
    && Identified(t.context)
    && GetOr(t.context, "order_id", Str("")) == Str(Held(sc, t.calls))
    && forall i :: 0 <= i < |t.calls| ==> FollowsScript(sc, t.calls[..i], t.calls[i])
  }

  lemma LookupAsks(context: Dict, asked: string)
    requires GetOr(context, "order_id", Str("")) == Str(asked)
    ensures PrepareParams(NO_NUMERAL, "order_lookup", context) == map["order_id" := Str(asked)]
  {
  }

  lemma DispatchFollows(sc: Script, iteration: nat, tool: string, t: Trace)
    requires Plays(sc) && Identified(t.context) && GetOr(t.context, "order_id", Str("")) == Str(Held(sc, t.calls))
    ensures var r := Dispatch(Stage(sc), iteration, tool, t);
            && r.tool == tool && FollowsScript(sc, t.calls, r)
            && GetOr(t.context + UpdateContext(NO_NUMERAL, r), "order_id", Str("")) ==
                 Str(if tool == "order_lookup" then sc.held else Held(sc, t.calls))
  {
    hide GoodData, IsUsable, UpdateContext, PrepareParams, Answer, CallsTo;
    var r := Dispatch(Stage(sc), iteration, tool, t);
    OrderAfter(t.context, UpdateContext(NO_NUMERAL, r));
    if tool == "order_lookup" {
      LookupAsks(t.context, Held(sc, t.calls));
      assert r == LookupRecord(Held(sc, t.calls), Answer(sc, t.calls), iteration);
      AnswerIs(sc, t.calls);
    } else {
      if tool == "crm" { CrmAsksContext(NO_NUMERAL, t.context); }
      GoodIsUsable(tool, PrepareParams(NO_NUMERAL, tool, t.context), iteration);
      NamedOrdersAreTruthy(NO_NUMERAL, r);
      RefundNamesContextOrder(NO_NUMERAL, t.context);
    }
  }

  lemma AnswerIs(sc: Script, log: seq<Record>)
    ensures Answer(sc, log) == if CallsTo(log, "order_lookup") == 0 then sc.first else sc.later
  {
  }

  lemma AppendMisled(sc: Script, iteration: nat, tool: string, t: Trace)
    requires Plays(sc) && Misled(sc, t)
    ensures Misled(sc, Append(Stage(sc), t, Dispatch(Stage(sc), iteration, tool, t)))
  {
    hide Plays, UpdateContext, CallsTo, Identified, FollowsScript, Dispatch, Scripted;
    var r := Dispatch(Stage(sc), iteration, tool, t);
    var all := t.calls + [r];
    DispatchFollows(sc, iteration, tool, t);
    UpdateIdentifies(NO_NUMERAL, t.context, r);
    CallsToAppend(t.calls, r, "order_lookup");
    assert all[..|t.calls|] == t.calls;
    forall i | 0 <= i < |t.calls| ensures all[i] == t.calls[i] && all[..i] == t.calls[..i] { }
  }

  lemma {:induction false} ExecToolsMisled(sc: Script, iteration: nat, tools: seq<string>, t: Trace)
    requires Plays(sc) && Misled(sc, t)
    ensures Misled(sc, ExecTools(Stage(sc), iteration, tools, t))
  {
    hide Stage, Plays, Misled, Dispatch;
    if tools != [] {
      AppendMisled(sc, iteration, tools[0], t);
      ExecToolsMisled(sc, iteration, tools[1..], ExecTool(Stage(sc), iteration, tools[0], t));
    }
  }

  lemma {:induction false} RunMisled(sc: Script, c: Config, answers: seq<Answers>)
    requires Plays(sc) && Misled(sc, Trace(c.s.context, c.s.calls))
    ensures var f := RunFrom(Stage(sc), c, answers).s; Misled(sc, Trace(f.context, f.calls))
    decreases |answers|
  {
    hide Stage, Plays, Judge, Plan, MemoryWrites, Remaining, Misled, ExecTools;
    if answers != [] {
      if c.node == Executing { ExecToolsMisled(sc, c.s.iteration, Flatten(c.s.dag), Trace(c.s.context, c.s.calls)); }
      RunMisled(sc, Step(Stage(sc), c, answers[0]), answers[1..]);
    }
  }

  // ---- the whole ticket ----

  const LOOKUP_FAILS_ONCE: string -> nat := t => if t == "order_lookup" then 1 else 0

  lemma MisledFailsFirst(sc: Script, t: Trace, tool: string)
    requires Misled(sc, t)
    ensures FailsFirst(Stage(sc), t.calls, tool, LOOKUP_FAILS_ONCE(tool))
  {
    hide Identified, Answer, IsUsable;
    StageIsProduction(sc);
    forall i | 0 <= i < |t.calls| && t.calls[i].tool == tool
      ensures Stage(sc).usable(t.calls[i]) <==> CallsTo(t.calls[..i], tool) >= LOOKUP_FAILS_ONCE(tool)
    {
      assert FollowsScript(sc, t.calls[..i], t.calls[i]);
    }
  }

  lemma {:induction false} FirstCallTo(calls: seq<Record>, tool: string) returns (k: nat)
    requires CallsTo(calls, tool) > 0
    ensures k < |calls| && calls[k].tool == tool && CallsTo(calls[..k], tool) == 0
  {
    var n := |calls| - 1;
    if CallsTo(calls[..n], tool) == 0 {
      k := n;
    } else {
      k := FirstCallTo(calls[..n], tool);
      assert calls[..n][..k] == calls[..k];
    }
  }

  lemma {:induction false} CalledBefore(calls: seq<Record>, j: nat)
    requires j < |calls|
    ensures CallsTo(calls, calls[j].tool) >= 1
  {
    var n := |calls| - 1;
    if j < n { CalledBefore(calls[..n], j); }
  }

  lemma StartMisled(sc: Script, context: Dict)
    requires Get(context, "order_id") == Str(sc.order) && Identified(context)
    ensures Misled(sc, Trace(context, []))
  {
  }

  lemma RefundRequestTools()
    ensures IntentTools("refund_request") == ["crm", "order_lookup", "refund"]
    ensures Closed(Elements(IntentTools("refund_request")))
  {
    assert ["crm", "order_lookup", "refund"][1] == "order_lookup";
  }

  lemma NeededInAll()
    ensures Needed(LOOKUP_FAILS_ONCE, "crm") == 1 && Needed(LOOKUP_FAILS_ONCE, "order_lookup") == 2
    ensures Needed(LOOKUP_FAILS_ONCE, "refund") == 2
    ensures CallsAfter(LOOKUP_FAILS_ONCE, "order_lookup", 2) == 2 && CallsAfter(LOOKUP_FAILS_ONCE, "refund", 2) == 1
  {
  }

  /** How such a ticket goes: one replan for the rejected lookup, then everything is usable. */
  lemma MisledTicketResolves(sc: Script, ticketId: string, hasMessage: bool, context: Dict, answers: seq<Answers>)
    requires Plays(sc) && |answers| >= 12 && Get(context, "order_id") == Str(sc.order) && Identified(context)
    ensures var c := Start(ticketId, hasMessage, "refund_request", context, IntentTools("refund_request"));
            var f := RunFrom(Stage(sc), c, answers).s;
            && f.resolved && f.iteration == 2 && f.replans == 1
            && CallsTo(f.calls, "order_lookup") == 2 && CallsTo(f.calls, "refund") == 1
            && Misled(sc, Trace(f.context, f.calls))
  {
    hide RunFrom, Misled, Stage, FailsFirst, IntentTools, NoRepeat, OncePerIteration, Plays;
    var env, expected := Stage(sc), IntentTools("refund_request");
    var c := Start(ticketId, hasMessage, "refund_request", context, expected);
    var f := RunFrom(env, c, answers).s;
    StageIsProduction(sc);
    StartMisled(sc, context);
    RunMisled(sc, c, answers);
    forall t | t in expected ensures FailsFirst(env, f.calls, t, LOOKUP_FAILS_ONCE(t)) {
      MisledFailsFirst(sc, Trace(f.context, f.calls), t);
    }
    RefundRequestTools();
    ResolvesInTime(env, ticketId, hasMessage, "refund_request", context, expected, answers, LOOKUP_FAILS_ONCE);
    OfflineAccounting(env, ticketId, hasMessage, "refund_request", context, expected, answers);
    assert expected[1] == "order_lookup" && expected[2] == "refund";
    NeededInAll();
  }

  lemma IntakeNames(ticketId: string, customerId: string, hasMessage: bool, order: string, email: Option<string>,
                    amount: Option<real>)
    requires customerId != "not_found"
    ensures var c := Intake(ticketId, customerId, hasMessage, "refund_request", Some(order), email, amount);
            && c == Start(ticketId, hasMessage, "refund_request", c.s.context, IntentTools("refund_request"))
            && Get(c.s.context, "order_id") == Str(order) && Identified(c.s.context)
  {
  }

  /** The rejected lookup `k`, the one refund `i`, and a usable lookup before it. */
  lemma MisledRefund(sc: Script, ticketId: string, customerId: string, hasMessage: bool, email: Option<string>,
                     amount: Option<real>, answers: seq<Answers>) returns (k: nat, i: nat)
    requires Plays(sc) && |answers| >= 12 && customerId != "not_found"
    ensures var c := Intake(ticketId, customerId, hasMessage, "refund_request", Some(sc.order), email, amount);
            var f := RunFrom(Stage(sc), c, answers).s;
            && f.resolved && f.iteration == 2 && f.replans == 1 && CallsTo(f.calls, "refund") == 1
            && k < i < |f.calls| && CallsTo(f.calls[..i], "order_lookup") >= 1
            && f.calls[k].tool == "order_lookup" && !IsUsable(f.calls[k])
            && f.calls[i].tool == "refund" && IsUsable(f.calls[i]) && Get(f.calls[i].params, "order_id") == Str(sc.held)
            && Misled(sc, Trace(f.context, f.calls))
  {
    hide RunFrom, Stage, Misled, IntentTools, Plays;
    var env := Stage(sc);
    var c := Intake(ticketId, customerId, hasMessage, "refund_request", Some(sc.order), email, amount);
    var f := RunFrom(env, c, answers).s;
    StageIsProduction(sc);
    assert sc.order != "" by { PlaysNames(sc); }
    IntakeNames(ticketId, customerId, hasMessage, sc.order, email, amount);
    MisledTicketResolves(sc, ticketId, hasMessage, c.s.context, answers);
    k := FirstCallTo(f.calls, "order_lookup");
    i := FirstCallTo(f.calls, "refund");
    var j := RefundsFollowLookups(env, ticketId, hasMessage, "refund_request", c.s.context, c.s.expected, answers, i);
    CalledBefore(f.calls[..i], j);
    RefundIsMisled(sc, Trace(f.context, f.calls), k, i, j);
  }

  lemma PlaysNames(sc: Script)
    requires Plays(sc)
    ensures sc.order != "" && sc.held != ""
  {
  }

  lemma RefundIsMisled(sc: Script, t: Trace, k: nat, i: nat, j: nat)
    requires Misled(sc, t)
    requires k < |t.calls| && t.calls[k].tool == "order_lookup" && CallsTo(t.calls[..k], "order_lookup") == 0
    requires j < i < |t.calls| && t.calls[i].tool == "refund" && t.calls[j].tool == "order_lookup"
    requires CallsTo(t.calls[..i], "order_lookup") >= 1
    ensures k < i && !IsUsable(t.calls[k]) && IsUsable(t.calls[i]) && Get(t.calls[i].params, "order_id") == Str(sc.held)
  {
    hide IsUsable, Answer, Identified;
    assert "refund" != "order_lookup" by { assert |"refund"| == 6 && |"order_lookup"| == 12; }
    assert FollowsScript(sc, t.calls[..k], t.calls[k]) && FollowsScript(sc, t.calls[..i], t.calls[i]);
    if i <= k {
      assert t.calls[..k][j] == t.calls[j];
      CalledBefore(t.calls[..k], j);
    }
  }

  // ---- lookups for another order ----

  function WrongData(wrong: string): Dict {
    map["order_id" := Str(wrong), "status" := Str("shipped")]
  }

  function WrongOrder(order: string, wrong: string): Script {
    Script(WrongData(wrong), WrongData(wrong), order, wrong)
  }

  lemma WrongLookup(asked: string, wrong: string, iteration: nat)
    requires wrong != "" && asked != ""
    ensures var r := LookupRecord(asked, WrongData(wrong), iteration);
            && (IsUsable(r) <==> asked == wrong) && GetOr(UpdateContext(NO_NUMERAL, r), "order_id", Null) == Str(wrong)
  {
    var d := WrongData(wrong);
    assert Get(d, "order_id") == Str(wrong) && Get(d, "status") == Str("shipped");
    assert "shipped"[0] == 's' && "not_found"[0] == 'n' && "UNKNOWN"[0] == 'U';
  }

  lemma WrongOrderPlays(order: string, wrong: string)
    requires order != "" && wrong != "" && wrong != order
    ensures Plays(WrongOrder(order, wrong))
  {
    hide IsUsable, UpdateContext, WrongData, LookupRecord;
    forall iteration: nat
      ensures !IsUsable(LookupRecord(order, WrongData(wrong), iteration)) && IsUsable(LookupRecord(wrong, WrongData(wrong), iteration))
      ensures GetOr(UpdateContext(NO_NUMERAL, LookupRecord(order, WrongData(wrong), iteration)), "order_id", Null) == Str(wrong)
      ensures GetOr(UpdateContext(NO_NUMERAL, LookupRecord(wrong, WrongData(wrong), iteration)), "order_id", Null) == Str(wrong)
    {
      WrongLookup(order, wrong, iteration);
      WrongLookup(wrong, wrong, iteration);
    }
  }

  /** A refund request for one order, in a world whose lookups answer for another: the first lookup is rejected, its
      retry asks for the other order and is accepted, the ticket resolves after one replan, and its one refund goes to
      the order the customer did not name. */
  lemma WrongEchoRedirectsRefund(ticketId: string, customerId: string, hasMessage: bool, email: Option<string>,
                                 amount: Option<real>, answers: seq<Answers>, order: string, wrong: string)
    returns (k: nat, i: nat)
    requires order != "" && wrong != "" && wrong != order && |answers| >= 12 && customerId != "not_found"
    ensures var env := Stage(WrongOrder(order, wrong));
            var f := RunFrom(env, Intake(ticketId, customerId, hasMessage, "refund_request", Some(order), email, amount), answers).s;
            && IsProduction(env) && !env.useLlm
            && f.resolved && f.iteration == 2 && f.replans == 1 && CallsTo(f.calls, "refund") == 1
            && k < i < |f.calls|
            && f.calls[k].tool == "order_lookup" && !IsUsable(f.calls[k])
            && f.calls[i].tool == "refund" && IsUsable(f.calls[i])
            && Get(f.calls[i].params, "order_id") == Str(wrong)
  {
    hide RunFrom, Stage, Misled, Intake, Plays;
    var sc := WrongOrder(order, wrong);
    StageIsProduction(sc);
    WrongOrderPlays(order, wrong);
    k, i := MisledRefund(sc, ticketId, customerId, hasMessage, email, amount, answers);
  }
}
