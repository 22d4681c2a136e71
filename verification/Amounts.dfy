/** What a refund pays. */
module Amounts {
  import opened Values
  import opened Records
  import opened Ordering
  import opened Dag
  import opened Executor
  import opened Critic
  import opened Pipeline
  import opened Safety
  import opened Provenance
  import opened Resolution
  import opened Worlds
  import opened Redirection

  /** The numeric total of a successful lookup that names an order, whether or not the lookup is usable. */
  function TotalOf(parse: string -> Option<real>, r: Record): Option<real> {
    var data := OrEmpty(r.data);
    if r.tool == "order_lookup" && r.success && Truthy(Get(data, "order_id")) && Get(data, "total_amount") != Null
    then ToFloat(parse, Get(data, "total_amount")) else None
  }

  /** The latest such total, the ticket's own amount before there is any. */
  function LastTotal(parse: string -> Option<real>, calls: seq<Record>, amount: Option<real>): Option<real> {
    if calls == [] then amount
    else
      var total := TotalOf(parse, calls[|calls| - 1]);
      if total.Some? then total else LastTotal(parse, calls[..|calls| - 1], amount)
  }

  lemma LastTotalAppend(parse: string -> Option<real>, calls: seq<Record>, r: Record, amount: Option<real>)
    ensures LastTotal(parse, calls + [r], amount) ==
            if TotalOf(parse, r).Some? then TotalOf(parse, r) else LastTotal(parse, calls, amount)
  {
    assert (calls + [r])[..|calls|] == calls;
  }

  function Charge(total: Option<real>): Value {
    Num(if total.Some? then total.value else 0.0)
  }

  function AmountIn(context: Dict): Value {
    Get(context, "amount")
  }

  /** The context holds the last total, and each refund paid the last total before it. */
  predicate Priced(env: Env, amount: Option<real>, t: Trace) {
    && AmountIn(t.context) == (match LastTotal(env.parseFloat, t.calls, amount) case Some(n) => Num(n) case None => Null)
    && forall i {:trigger LastTotal(env.parseFloat, t.calls[..i], amount)} :: 0 <= i < |t.calls| && t.calls[i].tool == "refund" ==>
         Get(t.calls[i].params, "amount") == Charge(LastTotal(env.parseFloat, t.calls[..i], amount))
  }

  lemma UpdateSetsTotal(parse: string -> Option<real>, context: Dict, r: Record)
    ensures AmountIn(context + UpdateContext(parse, r)) ==
            if TotalOf(parse, r).Some? then Num(TotalOf(parse, r).value) else AmountIn(context)
  {
    assert "amount" != "order_id" && "amount" != "customer_id" && "amount" != "email" by {
      assert |"amount"| == 6 && |"order_id"| == 8 && |"customer_id"| == 11 && |"email"| == 5;
    }
  }

  lemma RefundPays(parse: string -> Option<real>, context: Dict, total: Option<real>)
    requires AmountIn(context) == match total case Some(n) => Num(n) case None => Null
    ensures Get(PrepareParams(parse, "refund", context), "amount") == Charge(total)
  {
    assert "amount" != "order_id" && "amount" != "reason" by {
      assert |"amount"| == 6 && |"order_id"| == 8 && "reason"[0] == 'r' && "amount"[0] == 'a';
    }
  }

  lemma AppendPrices(env: Env, iteration: nat, tool: string, t: Trace, amount: Option<real>)
    requires IsProduction(env) && Priced(env, amount, t)
    ensures Priced(env, amount, Append(env, t, Dispatch(env, iteration, tool, t)))
  {
    hide UpdateContext, PrepareParams, IsUsable, LastTotal, TotalOf, AmountIn;
    var r := Dispatch(env, iteration, tool, t);
    var all := t.calls + [r];
    LastTotalAppend(env.parseFloat, t.calls, r, amount);
    UpdateSetsTotal(env.parseFloat, t.context, r);
    RefundPays(env.parseFloat, t.context, LastTotal(env.parseFloat, t.calls, amount));
    assert all[..|t.calls|] == t.calls;
    forall i | 0 <= i < |t.calls| ensures all[i] == t.calls[i] && all[..i] == t.calls[..i] { }
  }

  lemma {:induction false} ExecToolsPrice(env: Env, iteration: nat, tools: seq<string>, t: Trace, amount: Option<real>)
    requires IsProduction(env) && Priced(env, amount, t)
    ensures Priced(env, amount, ExecTools(env, iteration, tools, t))
  {
    hide Priced, Dispatch;
    if tools != [] {
      AppendPrices(env, iteration, tools[0], t, amount);
      ExecToolsPrice(env, iteration, tools[1..], ExecTool(env, iteration, tools[0], t), amount);
    }
  }

  lemma {:induction false} RunPrices(env: Env, c: Config, answers: seq<Answers>, amount: Option<real>)
    requires IsProduction(env) && Priced(env, amount, Trace(c.s.context, c.s.calls))
    ensures var f := RunFrom(env, c, answers).s; Priced(env, amount, Trace(f.context, f.calls))
    decreases |answers|
  {
    hide Judge, Plan, MemoryWrites, Remaining, Priced, ExecTools;
    if answers != [] {
      if c.node == Executing {
        ExecToolsPrice(env, c.s.iteration, Flatten(c.s.dag), Trace(c.s.context, c.s.calls), amount);
      }
      RunPrices(env, Step(env, c, answers[0]), answers[1..], amount);
    }
  }

  lemma IntakePrices(env: Env, ticketId: string, customerId: string, hasMessage: bool, intent: string,
                     order: Option<string>, email: Option<string>, amount: Option<real>)
    ensures var c := Intake(ticketId, customerId, hasMessage, intent, order, email, amount);
            Priced(env, amount, Trace(c.s.context, c.s.calls))
  {
  }

  /** For any LLM, memory and tools: a refund pays the numeric total of the latest successful lookup before it that names
      an order and has one, usable or not; without one, the amount the ticket names; without that, nothing. */
  lemma RefundPaysLastTotal(env: Env, ticketId: string, customerId: string, hasMessage: bool, intent: string,
                            order: Option<string>, email: Option<string>, amount: Option<real>, answers: seq<Answers>, i: nat)
    requires IsProduction(env)
    requires i < |RunFrom(env, Intake(ticketId, customerId, hasMessage, intent, order, email, amount), answers).s.calls|
    requires RunFrom(env, Intake(ticketId, customerId, hasMessage, intent, order, email, amount), answers).s.calls[i].tool == "refund"
    ensures var calls := RunFrom(env, Intake(ticketId, customerId, hasMessage, intent, order, email, amount), answers).s.calls;
            Get(calls[i].params, "amount") == Charge(LastTotal(env.parseFloat, calls[..i], amount))
  {
    hide RunFrom, LastTotal, Intake, AmountIn;
    IntakePrices(env, ticketId, customerId, hasMessage, intent, order, email, amount);
    RunPrices(env, Intake(ticketId, customerId, hasMessage, intent, order, email, amount), answers, amount);
  }

  // ---- the total of a rejected lookup ----

  function DoubtfulData(order: string, total: real): Dict {
    map["order_id" := Str(order), "status" := Str("UNKNOWN"), "total_amount" := Num(total)]
  }

  function PlainData(order: string): Dict {
    map["order_id" := Str(order), "status" := Str("shipped")]
  }

  /** The first lookup finds the order in an unknown state with a total, the later ones find it without a total. */
  function DoubtfulTotal(order: string, total: real): Script {
    Script(DoubtfulData(order, total), PlainData(order), order, order)
  }

  lemma DoubtfulLookup(order: string, total: real, iteration: nat)
    requires order != ""
    ensures var r := LookupRecord(order, DoubtfulData(order, total), iteration);
            !IsUsable(r) && GetOr(UpdateContext(NO_NUMERAL, r), "order_id", Null) == Str(order)
  {
    var d := DoubtfulData(order, total);
    assert Get(d, "order_id") == Str(order) && Get(d, "status") == Str("UNKNOWN") && Get(d, "total_amount") == Num(total);
    assert "amount" != "order_id" by { assert |"amount"| == 6 && |"order_id"| == 8; }
  }

  lemma PlainLookup(order: string, iteration: nat)
    requires order != ""
    ensures var r := LookupRecord(order, PlainData(order), iteration);
            IsUsable(r) && GetOr(UpdateContext(NO_NUMERAL, r), "order_id", Null) == Str(order)
  {
    var d := PlainData(order);
    assert Get(d, "order_id") == Str(order) && Get(d, "status") == Str("shipped");
    assert "shipped"[0] == 's' && "not_found"[0] == 'n' && "UNKNOWN"[0] == 'U';
  }

  lemma DoubtfulTotalPlays(order: string, total: real)
    requires order != ""
    ensures Plays(DoubtfulTotal(order, total))
  {
    hide IsUsable, UpdateContext, DoubtfulData, PlainData, LookupRecord;
    forall iteration: nat
      ensures !IsUsable(LookupRecord(order, DoubtfulData(order, total), iteration))
      ensures IsUsable(LookupRecord(order, PlainData(order), iteration))
      ensures GetOr(UpdateContext(NO_NUMERAL, LookupRecord(order, DoubtfulData(order, total), iteration)), "order_id", Null) == Str(order)
      ensures GetOr(UpdateContext(NO_NUMERAL, LookupRecord(order, PlainData(order), iteration)), "order_id", Null) == Str(order)
    {
      DoubtfulLookup(order, total, iteration);
      PlainLookup(order, iteration);
    }
  }

  lemma ScriptedTotals(order: string, total: real, before: seq<Record>, r: Record)
    requires FollowsScript(DoubtfulTotal(order, total), before, r) && order != ""
    ensures TotalOf(NO_NUMERAL, r) == if r.tool == "order_lookup" && CallsTo(before, "order_lookup") == 0 then Some(total) else None
  {
    hide IsUsable, CallsTo;
    var d, e := DoubtfulData(order, total), PlainData(order);
    assert Get(d, "order_id") == Str(order) && Get(d, "total_amount") == Num(total);
    assert "total_amount" !in e;
  }

  /** In such a run the total stays that of the first lookup. */
  lemma {:induction false} TotalOfTheFirst(order: string, total: real, calls: seq<Record>, amount: Option<real>)
    requires order != "" && forall i :: 0 <= i < |calls| ==> FollowsScript(DoubtfulTotal(order, total), calls[..i], calls[i])
    ensures LastTotal(NO_NUMERAL, calls, amount) == if CallsTo(calls, "order_lookup") == 0 then amount else Some(total)
  {
    hide FollowsScript, TotalOf;
    if calls != [] {
      var n := |calls| - 1;
      forall i | 0 <= i < n ensures FollowsScript(DoubtfulTotal(order, total), calls[..n][..i], calls[..n][i]) {
        assert calls[..n][..i] == calls[..i];
      }
      TotalOfTheFirst(order, total, calls[..n], amount);
      ScriptedTotals(order, total, calls[..n], calls[n]);
    }
  }

  /** A refund request whose rejected first lookup has a total and whose usable one has none: the refund pays the total of
      the rejected lookup. */
  lemma RejectedTotalIsPaid(ticketId: string, customerId: string, hasMessage: bool, email: Option<string>,
                            amount: Option<real>, answers: seq<Answers>, order: string, total: real)
    returns (k: nat, i: nat)
    requires order != "" && |answers| >= 12 && customerId != "not_found"
    ensures var env := Stage(DoubtfulTotal(order, total));
            var f := RunFrom(env, Intake(ticketId, customerId, hasMessage, "refund_request", Some(order), email, amount), answers).s;
            && IsProduction(env) && !env.useLlm && f.resolved
            && k < i < |f.calls|
            && f.calls[k].tool == "order_lookup" && !IsUsable(f.calls[k])
            && f.calls[i].tool == "refund" && IsUsable(f.calls[i])
            && Get(f.calls[i].params, "amount") == Num(total)
  {
    hide RunFrom, Intake, Plays, IsProduction, LastTotal, FollowsScript, IsUsable, Scripted;
    var sc := DoubtfulTotal(order, total);
    var c := Intake(ticketId, customerId, hasMessage, "refund_request", Some(order), email, amount);
    var f := RunFrom(Stage(sc), c, answers).s;
    StageIsProduction(sc);
    DoubtfulTotalPlays(order, total);
    k, i := MisledRefund(sc, ticketId, customerId, hasMessage, email, amount, answers);
    RefundPaysLastTotal(Stage(sc), ticketId, customerId, hasMessage, "refund_request", Some(order), email, amount, answers, i);
    forall j | 0 <= j < i ensures FollowsScript(sc, f.calls[..i][..j], f.calls[..i][j]) {
      assert f.calls[..i][..j] == f.calls[..j];
    }
    TotalOfTheFirst(order, total, f.calls[..i], amount);
  }
}
