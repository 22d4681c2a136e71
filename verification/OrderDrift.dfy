/** Whether a refund goes to the order the customer named. */
module OrderDrift {
  import opened Values
  import opened Records
  import opened Ordering
  import opened Dag
  import opened Executor
  import opened Critic
  import opened Pipeline
  import Safety
  import opened Provenance

  /** The order an unusable lookup put into the context, if it did. */
  function Misnamed(env: Env, r: Record): Option<Value> {
    var update := UpdateContext(env.parseFloat, r);
    if r.tool == "order_lookup" && !env.usable(r) && "order_id" in update then Some(update["order_id"]) else None
  }

  /** The order named by the latest unusable lookup that names one, the ticket's own order before there is any. */
  function LastNamed(env: Env, calls: seq<Record>, order: Value): Value {
    if calls == [] then order
    else
      var named := Misnamed(env, calls[|calls| - 1]);
      if named.Some? then named.value else LastNamed(env, calls[..|calls| - 1], order)
  }

  lemma LastNamedAppend(env: Env, calls: seq<Record>, r: Record, order: Value)
    ensures LastNamed(env, calls + [r], order) ==
            if Misnamed(env, r).Some? then Misnamed(env, r).value else LastNamed(env, calls, order)
  {
    assert (calls + [r])[..|calls|] == calls;
  }

  /** The context holds the order named last, and each refund went to the one named last before it. */
  predicate Tracks(env: Env, order: Value, t: Trace) {
    && GetOr(t.context, "order_id", Str("")) == LastNamed(env, t.calls, order)
    && Truthy(LastNamed(env, t.calls, order))
    && forall i {:trigger LastNamed(env, t.calls[..i], order)} :: 0 <= i < |t.calls| && t.calls[i].tool == "refund" ==>
         Get(t.calls[i].params, "order_id") == LastNamed(env, t.calls[..i], order)
  }

  lemma LookupEchoes(parse: string -> Option<real>, r: Record, context: Dict)
    requires r.tool == "order_lookup" && IsUsable(r) && r.params == PrepareParams(parse, "order_lookup", context)
    requires Truthy(GetOr(context, "order_id", Str("")))
    ensures GetOr(UpdateContext(parse, r), "order_id", Null) == GetOr(context, "order_id", Str(""))
  {
  }

  lemma RefundNamesContextOrder(parse: string -> Option<real>, context: Dict)
    ensures Get(PrepareParams(parse, "refund", context), "order_id") == GetOr(context, "order_id", Str(""))
  {
  }

  /** A record leaves the context's order alone unless it is a lookup that names one. */
  lemma OrderAfter(context: Dict, update: Dict)
    ensures GetOr(context + update, "order_id", Str("")) ==
            if "order_id" in update then update["order_id"] else GetOr(context, "order_id", Str(""))
  {
  }

  lemma NamedOrdersAreTruthy(parse: string -> Option<real>, r: Record)
    ensures var update := UpdateContext(parse, r);
            "order_id" in update ==> r.tool == "order_lookup" && Truthy(update["order_id"])
  {
    assert "order_id" != "customer_id" && "order_id" != "email" by { assert |"order_id"| == 8 && |"customer_id"| == 11 && |"email"| == 5; }
  }

  lemma AppendTracks(env: Env, iteration: nat, tool: string, t: Trace, order: Value)
    requires IsProduction(env) && Tracks(env, order, t)
    ensures Tracks(env, order, Append(env, t, Dispatch(env, iteration, tool, t)))
  {
    hide UpdateContext, PrepareParams, IsUsable, LastNamed;
    var r := Dispatch(env, iteration, tool, t);
    var update, all := UpdateContext(env.parseFloat, r), t.calls + [r];
    LastNamedAppend(env, t.calls, r, order);
    OrderAfter(t.context, update);
    NamedOrdersAreTruthy(env.parseFloat, r);
    RefundNamesContextOrder(env.parseFloat, t.context);
    if tool == "order_lookup" && env.usable(r) { LookupEchoes(env.parseFloat, r, t.context); }
    assert all[..|t.calls|] == t.calls;
    forall i | 0 <= i < |t.calls| ensures all[i] == t.calls[i] && all[..i] == t.calls[..i] { }
  }

  lemma {:induction false} ExecToolsTrack(env: Env, iteration: nat, tools: seq<string>, t: Trace, order: Value)
    requires IsProduction(env) && Tracks(env, order, t)
    ensures Tracks(env, order, ExecTools(env, iteration, tools, t))
  {
    hide Tracks, Dispatch;
    if tools != [] {
      AppendTracks(env, iteration, tools[0], t, order);
      ExecToolsTrack(env, iteration, tools[1..], ExecTool(env, iteration, tools[0], t), order);
    }
  }

  lemma {:induction false} RunTracks(env: Env, c: Config, answers: seq<Answers>, order: Value)
    requires IsProduction(env) && Tracks(env, order, Trace(c.s.context, c.s.calls))
    ensures var f := RunFrom(env, c, answers).s; Tracks(env, order, Trace(f.context, f.calls))
    decreases |answers|
  {
    hide Judge, Plan, MemoryWrites, Remaining, Tracks, ExecTools;
    if answers != [] {
      if c.node == Executing {
        ExecToolsTrack(env, c.s.iteration, Flatten(c.s.dag), Trace(c.s.context, c.s.calls), order);
      }
      RunTracks(env, Step(env, c, answers[0]), answers[1..], order);
    }
  }

  lemma StartTracks(env: Env, context: Dict, order: Value)
    requires Truthy(order) && GetOr(context, "order_id", Str("")) == order
    ensures Tracks(env, order, Trace(context, []))
  {
  }

  /** For any LLM, memory and tools: a refund goes to the order named by the latest rejected lookup before it that named
      one, and to the ticket's own order if there was none. So it goes to the ticket's order exactly when the latest
      such lookup named it. */
  lemma RefundsStayOnOrder(env: Env, ticketId: string, hasMessage: bool, intent: string, context: Dict,
                           expected: seq<string>, answers: seq<Answers>, order: Value, i: nat)
    requires IsProduction(env) && Truthy(order) && GetOr(context, "order_id", Str("")) == order
    requires i < |RunFrom(env, Start(ticketId, hasMessage, intent, context, expected), answers).s.calls|
    requires RunFrom(env, Start(ticketId, hasMessage, intent, context, expected), answers).s.calls[i].tool == "refund"
    ensures var calls := RunFrom(env, Start(ticketId, hasMessage, intent, context, expected), answers).s.calls;
            && Get(calls[i].params, "order_id") == LastNamed(env, calls[..i], order)
            && (Get(calls[i].params, "order_id") == order <==> LastNamed(env, calls[..i], order) == order)
  {
    hide RunFrom, LastNamed;
    StartTracks(env, context, order);
    RunTracks(env, Start(ticketId, hasMessage, intent, context, expected), answers, order);
  }
}
