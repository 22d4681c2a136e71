/** What every call of a production run asks its tool, and what the log keeps of the answer. */
module Parameters {
  import opened Values
  import opened Records
  import opened Ordering
  import opened Dag
  import opened Executor
  import opened Critic
  import opened Pipeline
  import opened Safety
  import opened Provenance
  import Amounts

  // ---- what a result contributes to later calls ----

  /** A profile is taken over from a successful result that names a customer and marks no doubt, usable or not. */
  predicate NamesCustomer(r: Record) {
    var data := OrEmpty(r.data);
    && r.tool == "crm" && r.success
    && Truthy(Get(data, "customer_id")) && Get(data, "customer_id") != Str("not_found")
    && Get(data, "status") != Str("not_found") && Get(data, "status") != Str("UNKNOWN")
  }

  /** An order is taken over from any successful lookup that names one. */
  predicate NamesOrder(r: Record) {
    r.tool == "order_lookup" && r.success && Truthy(Get(OrEmpty(r.data), "order_id"))
  }

  function CustomerNow(calls: seq<Record>, ticket: Value): Value {
    if calls == [] then ticket
    else
      var r := calls[|calls| - 1];
      if NamesCustomer(r) then OrEmpty(r.data)["customer_id"] else CustomerNow(calls[..|calls| - 1], ticket)
  }

  function EmailNow(calls: seq<Record>, ticket: Value): Value {
    if calls == [] then ticket
    else
      var r := calls[|calls| - 1];
      if NamesCustomer(r) then GetOr(OrEmpty(r.data), "email", Str("")) else EmailNow(calls[..|calls| - 1], ticket)
  }

  function OrderNow(calls: seq<Record>, ticket: Value): Value {
    if calls == [] then ticket
    else
      var r := calls[|calls| - 1];
      if NamesOrder(r) then OrEmpty(r.data)["order_id"] else OrderNow(calls[..|calls| - 1], ticket)
  }

  lemma NowAppend(calls: seq<Record>, r: Record, ticket: Value)
    ensures CustomerNow(calls + [r], ticket) ==
            if NamesCustomer(r) then Get(OrEmpty(r.data), "customer_id") else CustomerNow(calls, ticket)
    ensures EmailNow(calls + [r], ticket) ==
            if NamesCustomer(r) then GetOr(OrEmpty(r.data), "email", Str("")) else EmailNow(calls, ticket)
    ensures OrderNow(calls + [r], ticket) ==
            if NamesOrder(r) then Get(OrEmpty(r.data), "order_id") else OrderNow(calls, ticket)
  {
    assert (calls + [r])[..|calls|] == calls;
  }

  /** What the ticket itself says: Null for a missing e-mail, the empty text for a missing order. */
  datatype Ticket = Ticket(customer: Value, email: Value, order: Value, amount: Option<real>)

  /** The context is what the calls so far make of the ticket; it never holds a message or a reason. */
  predicate ContextFits(parse: string -> Option<real>, ticket: Ticket, t: Trace) {
    && Get(t.context, "customer_id") == CustomerNow(t.calls, ticket.customer)
    && Get(t.context, "email") == EmailNow(t.calls, ticket.email)
    && GetOr(t.context, "order_id", Str("")) == OrderNow(t.calls, ticket.order)
    && "customer_message" !in t.context && "refund_reason" !in t.context
    && Amounts.AmountIn(t.context) ==
       match Amounts.LastTotal(parse, t.calls, ticket.amount) case Some(n) => Num(n) case None => Null
  }

  lemma KeysDiffer()
    ensures "customer_id" != "email" && "customer_id" != "order_id" && "customer_id" != "amount"
    ensures "email" != "order_id" && "email" != "amount" && "order_id" != "amount"
    ensures "customer_message" !in {"customer_id", "email", "order_id", "amount"}
    ensures "refund_reason" !in {"customer_id", "email", "order_id", "amount"}
  {
    assert |"customer_id"| == 11 && |"email"| == 5 && |"order_id"| == 8 && |"amount"| == 6;
    assert |"customer_message"| == 16 && |"refund_reason"| == 13;
  }

  lemma UpdateMeans(parse: string -> Option<real>, r: Record)
    ensures var update := UpdateContext(parse, r);
            && ("customer_id" in update <==> NamesCustomer(r)) && ("email" in update <==> NamesCustomer(r))
            && ("order_id" in update <==> NamesOrder(r))
            && (NamesCustomer(r) ==> update["customer_id"] == Get(OrEmpty(r.data), "customer_id")
                                     && update["email"] == GetOr(OrEmpty(r.data), "email", Str("")))
            && (NamesOrder(r) ==> update["order_id"] == Get(OrEmpty(r.data), "order_id"))
            && "customer_message" !in update && "refund_reason" !in update
  {
    KeysDiffer();
    assert |"crm"| == 3 && |"order_lookup"| == 12;
  }

  lemma ContextStaysFit(parse: string -> Option<real>, ticket: Ticket, t: Trace, r: Record)
    requires ContextFits(parse, ticket, t)
    ensures ContextFits(parse, ticket, Trace(t.context + UpdateContext(parse, r), t.calls + [r]))
  {
    hide UpdateContext, NamesCustomer, NamesOrder, CustomerNow, EmailNow, OrderNow;
    hide Amounts.LastTotal, Amounts.TotalOf, Amounts.AmountIn;
    UpdateMeans(parse, r);
    NowAppend(t.calls, r, ticket.customer);
    NowAppend(t.calls, r, ticket.email);
    NowAppend(t.calls, r, ticket.order);
    Amounts.LastTotalAppend(parse, t.calls, r, ticket.amount);
    Amounts.UpdateSetsTotal(parse, t.context, r);
  }

  // ---- every call of a run ----

  /** What a tool is asked, given the calls before. */
  predicate Asks(parse: string -> Option<real>, ticket: Ticket, before: seq<Record>, tool: string, params: Dict) {
    && (tool == "crm" ==>
          params == map["customer_id" := CustomerNow(before, ticket.customer), "email" := EmailNow(before, ticket.email)])
    && (tool == "order_lookup" ==> params == map["order_id" := OrderNow(before, ticket.order)])
    && (tool == "refund" ==>
          params == map["order_id" := OrderNow(before, ticket.order), "reason" := Str("customer request"),
                        "amount" := Amounts.Charge(Amounts.LastTotal(parse, before, ticket.amount))])
    && (tool == "kb_search" ==> params == map["query" := Str(""), "top_k" := Num(3.0)])
    && (tool !in {"crm", "order_lookup", "refund", "kb_search"} ==> params == map[])
  }

  /** The record is the tool's answer to its parameters after the calls before. */
  predicate IsReply(env: Env, before: seq<Record>, r: Record) {
    var result := env.tools(before, r.tool, r.params);
    r.success == result.success && r.error == result.error && r.data == result.data
  }

  /** Every call asked what it should have, and is on record with what its tool answered. */
  predicate Logged(env: Env, ticket: Ticket, calls: seq<Record>) {
    forall i :: 0 <= i < |calls| ==> CallFits(env, ticket, calls[..i], calls[i])
  }

  predicate CallFits(env: Env, ticket: Ticket, before: seq<Record>, r: Record) {
    Asks(env.parseFloat, ticket, before, r.tool, r.params) && IsReply(env, before, r)
  }

  lemma PreparedAsks(parse: string -> Option<real>, ticket: Ticket, t: Trace, tool: string)
    requires ContextFits(parse, ticket, t)
    ensures Asks(parse, ticket, t.calls, tool, PrepareParams(parse, tool, t.context))
  {
    hide CustomerNow, EmailNow, OrderNow, Amounts.LastTotal;
    assert |"crm"| == 3 && |"order_lookup"| == 12 && |"refund"| == 6 && |"kb_search"| == 9;
  }

  lemma DispatchFits(env: Env, iteration: nat, ticket: Ticket, t: Trace, tool: string)
    requires IsProduction(env) && ContextFits(env.parseFloat, ticket, t)
    ensures CallFits(env, ticket, t.calls, Dispatch(env, iteration, tool, t))
  {
    hide ContextFits, Asks, PrepareParams, IsUsable;
    PreparedAsks(env.parseFloat, ticket, t, tool);
  }

  predicate Fits(env: Env, ticket: Ticket, t: Trace) {
    ContextFits(env.parseFloat, ticket, t) && Logged(env, ticket, t.calls)
  }

  lemma AppendFits(env: Env, iteration: nat, ticket: Ticket, t: Trace, tool: string)
    requires IsProduction(env) && Fits(env, ticket, t)
    ensures Fits(env, ticket, Append(env, t, Dispatch(env, iteration, tool, t)))
  {
    hide ContextFits, CallFits, Dispatch, IsUsable, PrepareParams;
    var r := Dispatch(env, iteration, tool, t);
    DispatchFits(env, iteration, ticket, t, tool);
    ContextStaysFit(env.parseFloat, ticket, t, r);
    var all := t.calls + [r];
    assert all[..|t.calls|] == t.calls;
    forall i | 0 <= i < |all| ensures CallFits(env, ticket, all[..i], all[i]) {
      if i < |t.calls| { assert all[..i] == t.calls[..i]; }
    }
  }

  lemma {:induction false} ExecToolsFit(env: Env, iteration: nat, tools: seq<string>, ticket: Ticket, t: Trace)
    requires IsProduction(env) && Fits(env, ticket, t)
    ensures Fits(env, ticket, ExecTools(env, iteration, tools, t))
  {
    hide Fits, Dispatch;
    if tools != [] {
      AppendFits(env, iteration, ticket, t, tools[0]);
      ExecToolsFit(env, iteration, tools[1..], ticket, ExecTool(env, iteration, tools[0], t));
    }
  }

  lemma {:induction false} RunFits(env: Env, c: Config, answers: seq<Answers>, ticket: Ticket)
    requires IsProduction(env) && Fits(env, ticket, Trace(c.s.context, c.s.calls))
    ensures var f := RunFrom(env, c, answers).s; Fits(env, ticket, Trace(f.context, f.calls))
    decreases |answers|
  {
    hide Judge, Plan, MemoryWrites, Remaining, Fits, ExecTools;
    if answers != [] {
      if c.node == Executing { ExecToolsFit(env, c.s.iteration, Flatten(c.s.dag), ticket, Trace(c.s.context, c.s.calls)); }
      RunFits(env, Step(env, c, answers[0]), answers[1..], ticket);
    }
  }

  function TicketOf(customerId: string, order: Option<string>, email: Option<string>, amount: Option<real>): Ticket {
    Ticket(Str(customerId), if email.Some? then Str(email.value) else Null,
           if order.Some? then Str(order.value) else Str(""), amount)
  }

  lemma IntakeFits(env: Env, ticketId: string, customerId: string, hasMessage: bool, intent: string,
                   order: Option<string>, email: Option<string>, amount: Option<real>)
    ensures var c := Intake(ticketId, customerId, hasMessage, intent, order, email, amount);
            Fits(env, TicketOf(customerId, order, email, amount), Trace(c.s.context, c.s.calls))
  {
    KeysDiffer();
  }

  /** For any LLM, memory and tools, every call of a ticket: crm is asked for the customer and e-mail of the latest profile
      taken over, or the ticket's; the order tools for the order of the latest lookup that named one, or the ticket's;
      a refund pays the last total. The customer's own words reach no tool: the knowledge base is always searched for the
      empty text, with room for three articles, and every refund gives the same reason. The record of a call is its
      tool's answer. */
  lemma EveryCallAsks(env: Env, ticketId: string, customerId: string, hasMessage: bool, intent: string,
                      order: Option<string>, email: Option<string>, amount: Option<real>, answers: seq<Answers>, i: nat)
    requires IsProduction(env)
    requires i < |RunFrom(env, Intake(ticketId, customerId, hasMessage, intent, order, email, amount), answers).s.calls|
    ensures var calls := RunFrom(env, Intake(ticketId, customerId, hasMessage, intent, order, email, amount), answers).s.calls;
            && Asks(env.parseFloat, TicketOf(customerId, order, email, amount), calls[..i], calls[i].tool, calls[i].params)
            && IsReply(env, calls[..i], calls[i])
  {
    hide RunFrom, Asks, IsReply, ContextFits, Intake;
    var ticket := TicketOf(customerId, order, email, amount);
    var c := Intake(ticketId, customerId, hasMessage, intent, order, email, amount);
    IntakeFits(env, ticketId, customerId, hasMessage, intent, order, email, amount);
    RunFits(env, c, answers, ticket);
    var calls := RunFrom(env, c, answers).s.calls;
    assert CallFits(env, ticket, calls[..i], calls[i]);
  }

  /** So a resolved ticket that needs the knowledge base has a usable search on record, and it asked for nothing. */
  lemma ResolvedSearchAskedNothing(env: Env, ticketId: string, customerId: string, hasMessage: bool, intent: string,
                                   order: Option<string>, email: Option<string>, amount: Option<real>, answers: seq<Answers>)
    returns (i: nat)
    requires IsProduction(env) && |answers| >= 12 && "kb_search" in IntentTools(intent)
    requires RunFrom(env, Intake(ticketId, customerId, hasMessage, intent, order, email, amount), answers).s.resolved
    ensures var calls := RunFrom(env, Intake(ticketId, customerId, hasMessage, intent, order, email, amount), answers).s.calls;
            && i < |calls| && calls[i].tool == "kb_search" && IsUsable(calls[i])
            && calls[i].params == map["query" := Str(""), "top_k" := Num(3.0)]
  {
    hide RunFrom, IsReply, IntentTools, IsUsable;
    var c := Intake(ticketId, customerId, hasMessage, intent, order, email, amount);
    var calls := RunFrom(env, c, answers).s.calls;
    EveryRunEnds(env, ticketId, hasMessage, intent, c.s.context, IntentTools(intent), answers);
    assert "kb_search" in UsableTools(env, calls);
    var r :| r in calls && env.usable(r) && r.tool == "kb_search";
    i :| 0 <= i < |calls| && calls[i] == r;
    EveryCallAsks(env, ticketId, customerId, hasMessage, intent, order, email, amount, answers, i);
  }
}
