/** The simulated tools (src/tools/crm.py, order.py, refund.py, kb_search.py) over any tables, and how well the usability
    check, which never sees the injected failure, finds it out. */
module Detector {
  import opened Values
  import opened Records

  type Table = seq<Dict>

  /** The scoring and rounding of the knowledge base and of refunds are parameters; so are the tables and the placeholder
      article of an ambiguous search. */
  datatype World = World(customers: Table, orders: Table, articles: (string, int) -> seq<Value>,
                         unrelated: (string, int) -> seq<Value>, placeholder: Value, round: real -> real)

  datatype Call =
    | Crm(id: Option<string>, email: Option<string>)
    | OrderLookup(id: Option<string>)
    | Refund(orderId: string, amount: real, reason: string)
    | KbSearch(query: string, topK: int)

  function Text(o: Option<string>): Value {
    match o case Some(s) => Str(s) case None => Null
  }

  // ---- tables ----

  predicate Keyed(t: Table, key: string) {
    && (forall i :: 0 <= i < |t| ==> Get(t[i], key).Str? && Get(t[i], key).text != "")
    && (forall i, j :: 0 <= i < j < |t| ==> Get(t[i], key) != Get(t[j], key))
  }

  /** The row with this value under `key`. */
  function Row(t: Table, key: string, v: Value): (r: Option<Dict>)
    ensures r.Some? ==> r.value in t && Get(r.value, key) == v
    ensures r.None? ==> forall i :: 0 <= i < |t| ==> Get(t[i], key) != v
  {
    if t == [] then None else if Get(t[|t| - 1], key) == v then Some(t[|t| - 1]) else Row(t[..|t| - 1], key, v)
  }

  /** The first row whose value under `key` is not `v`. */
  function OtherRow(t: Table, key: string, v: Value): (r: Option<Dict>)
    ensures r.Some? ==> r.value in t && Get(r.value, key) != v
    ensures r.None? ==> forall i :: 0 <= i < |t| ==> Get(t[i], key) == v
  {
    if t == [] then None else if Get(t[0], key) != v then Some(t[0]) else OtherRow(t[1..], key, v)
  }

  /** It is the first of those rows: row `k`, behind rows that all have the value. */
  lemma {:induction false} OtherRowIsFirst(t: Table, key: string, v: Value) returns (k: nat)
    requires OtherRow(t, key, v).Some?
    ensures k < |t| && t[k] == OtherRow(t, key, v).value && Get(t[k], key) != v && forall j :: 0 <= j < k ==> Get(t[j], key) == v
  {
    if Get(t[0], key) != v {
      k := 0;
    } else {
      k := OtherRowIsFirst(t[1..], key, v);
      k := k + 1;
    }
  }

  lemma OtherRowExists(t: Table, key: string, v: Value)
    requires Keyed(t, key) && |t| >= 2
    ensures OtherRow(t, key, v).Some?
  {
    assert Get(t[0], key) != Get(t[1], key);
  }

  predicate GoodCustomer(c: Dict) {
    && Get(c, "customer_id") != Str("not_found") && Get(c, "tier") != Str("unknown") && Get(c, "lifetime_value") != Null
    && "status" !in c && "note" !in c
  }

  predicate GoodOrder(o: Dict) {
    !MarkedBad(Get(o, "status")) && "note" !in o
  }

  predicate WellFormed(w: World) {
    && |w.customers| >= 2 && Keyed(w.customers, "customer_id") && (forall c :: c in w.customers ==> GoodCustomer(c))
    && |w.orders| >= 2 && Keyed(w.orders, "order_id") && (forall o :: o in w.orders ==> GoodOrder(o))
  }

  // ---- crm ----

  /** By id if one is given, else by e-mail; of two profiles with one address the later wins. */
  function ResolveCustomer(w: World, id: Option<string>, email: Option<string>): Option<Dict> {
    if Truthy(Text(id)) then Row(w.customers, "customer_id", Text(id))
    else if Truthy(Text(email)) then Row(w.customers, "email", Text(email))
    else None
  }

  function CrmSuccess(w: World, id: Option<string>, email: Option<string>): Dict {
    var customer := ResolveCustomer(w, id, email);
    if customer.Some? then customer.value
    else map["customer_id" := Text(id), "email" := Text(email), "status" := Str("not_found"),
             "message" := Str("No matching customer profile")]
  }

  function CrmAmbiguous(id: Option<string>, email: Option<string>): Dict {
    map["customer_id" := Text(id), "email" := Text(email), "name" := Str("J. Doe"), "tier" := Str("unknown"),
        "lifetime_value" := Null, "open_tickets" := Str("unclear"), "last_contact" := Null,
        "message" := Str("Multiple profiles matched the provided identifiers")]
  }

  /** The first other profile, or the first one if there is no other. */
  function CrmWrong(w: World, id: Option<string>, email: Option<string>): Dict
    requires w.customers != []
  {
    var resolved := ResolveCustomer(w, id, email);
    var other := if resolved.None? then Some(w.customers[0])
                 else OtherRow(w.customers, "customer_id", Get(resolved.value, "customer_id"));
    if other.Some? then other.value else w.customers[0]
  }

  /** `crm._wrong_payload`, as the loop it is. */
  method CrmWrongPayload(w: World, id: Option<string>, email: Option<string>) returns (d: Dict)
    requires w.customers != []
    ensures d == CrmWrong(w, id, email)
  {
    hide ResolveCustomer, Get;
    var resolved := ResolveCustomer(w, id, email);
    ghost var own := if resolved.None? then Null else Get(resolved.value, "customer_id");
    assert w.customers[0..] == w.customers;
    for i := 0 to |w.customers|
      invariant resolved.None? ==> i == 0
      invariant OtherRow(w.customers, "customer_id", own) == OtherRow(w.customers[i..], "customer_id", own)
    {
      var profile := w.customers[i];
      assert w.customers[i..][0] == profile && w.customers[i..][1..] == w.customers[i + 1..];
      if resolved.None? || Get(profile, "customer_id") != Get(resolved.value, "customer_id") { return profile; }
    }
    return w.customers[0];
  }

  // ---- the other tools ----

  function OrderSuccess(w: World, id: Option<string>): Dict {
    var order := Row(w.orders, "order_id", Text(id));
    if order.Some? then order.value
    else map["order_id" := Text(id), "status" := Str("not_found"), "message" := Str("No order found")]
  }

  function OrderAmbiguous(id: Option<string>): Dict {
    map["order_id" := Text(id), "status" := Str("UNKNOWN"), "status_detail" := Str("PENDING_REVIEW"),
        "placed_at" := Null, "delivered_at" := Null, "total_amount" := Str("N/A"), "items" := Many([]),
        "note" := Str("Multiple matching records found; manual review required")]
  }

  function OrderWrong(w: World, id: Option<string>): Dict
    requires OtherRow(w.orders, "order_id", Text(id)).Some?
  {
    OtherRow(w.orders, "order_id", Text(id)).value
  }

  function LastFour(s: string): string {
    if |s| <= 4 then s else s[|s| - 4..]
  }

  function RefundId(orderId: string): Value {
    Str("RFND-" + LastFour(orderId) + "-9281")
  }

  function RefundSuccess(w: World, orderId: string, amount: real, reason: string): Dict {
    map["refund_id" := RefundId(orderId), "order_id" := Str(orderId), "status" := Str("approved"),
        "amount" := Num(w.round(amount)), "currency" := Str("USD"), "reason" := Str(reason), "estimated_days" := Num(5.0),
        "message" := Str("Refund approved and queued for processing")]
  }

  function RefundAmbiguous(orderId: string, amount: real, reason: string): Dict {
    map["refund_id" := Null, "order_id" := Str(orderId), "status" := Str("pending_review"), "amount" := Num(amount),
        "currency" := Str("USD"), "reason" := Str(reason), "estimated_days" := Null,
        "message" := Str("Refund eligibility unclear; additional verification required")]
  }

  function WrongOrderId(orderId: string): string {
    if orderId != "ORD-9999" then "ORD-9999" else "ORD-8888"
  }

  function RefundWrong(w: World, orderId: string, amount: real, reason: string): Dict {
    map["refund_id" := RefundId(WrongOrderId(orderId)), "order_id" := Str(WrongOrderId(orderId)), "status" := Str("approved"),
        "amount" := Num(w.round(amount * 0.5)), "currency" := Str("USD"), "reason" := Str(reason),
        "estimated_days" := Num(5.0), "message" := Str("Partial refund approved")]
  }

  function KbSuccess(w: World, query: string, topK: int): Dict {
    var results := w.articles(query, topK);
    map["query" := Str(query), "results" := Many(results), "result_count" := Num(|results| as real)]
  }

  /** A one-element list cut to `topK`; a negative bound cuts from the end. */
  function CutOne(v: Value, topK: int): seq<Value> {
    if topK >= 1 then [v] else []
  }

  function KbAmbiguous(w: World, query: string, topK: int): Dict {
    map["query" := Str(query), "results" := Many(CutOne(w.placeholder, topK)), "result_count" := Null,
        "message" := Str("Search results are incomplete and may not match the query intent")]
  }

  function KbWrong(w: World, query: string, topK: int): Dict {
    var results := w.unrelated(query, topK);
    map["query" := Str(query), "results" := Many(results), "result_count" := Num(|results| as real),
        "message" := Str("High-confidence results returned")]
  }

  // ---- dispatch ----

  function ToolOf(c: Call): string {
    match c
    case Crm(_, _) => "crm"
    case OrderLookup(_) => "order_lookup"
    case Refund(_, _, _) => "refund"
    case KbSearch(_, _) => "kb_search"
  }

  function ParamsOf(c: Call): Dict {
    match c
    case Crm(id, email) => map["customer_id" := Text(id), "email" := Text(email)]
    case OrderLookup(id) => map["order_id" := Text(id)]
    case Refund(id, amount, reason) => map["order_id" := Str(id), "amount" := Num(amount), "reason" := Str(reason)]
    case KbSearch(query, topK) => map["query" := Str(query), "top_k" := Num(topK as real)]
  }

  /** The payload of a call that does not time out. */
  function Payload(w: World, c: Call, failure: Option<FailureType>): Dict
    requires WellFormed(w)
  {
    match c
    case Crm(id, email) =>
      if failure == Some(AmbiguousData) then CrmAmbiguous(id, email)
      else if failure == Some(WrongResult) then CrmWrong(w, id, email) else CrmSuccess(w, id, email)
    case OrderLookup(id) =>
      OtherRowExists(w.orders, "order_id", Text(id));
      if failure == Some(AmbiguousData) then OrderAmbiguous(id)
      else if failure == Some(WrongResult) then OrderWrong(w, id) else OrderSuccess(w, id)
    case Refund(id, amount, reason) =>
      if failure == Some(AmbiguousData) then RefundAmbiguous(id, amount, reason)
      else if failure == Some(WrongResult) then RefundWrong(w, id, amount, reason) else RefundSuccess(w, id, amount, reason)
    case KbSearch(query, topK) =>
      if failure == Some(AmbiguousData) then KbAmbiguous(w, query, topK)
      else if failure == Some(WrongResult) then KbWrong(w, query, topK) else KbSuccess(w, query, topK)
  }

  function Dispatch(w: World, c: Call, failure: Option<FailureType>): ToolResult
    requires WellFormed(w)
  {
    if failure == Some(Timeout) then ToolResult(false, None, Some("Upstream service timed out after 30 seconds"), failure)
    else ToolResult(true, Some(Payload(w, c, failure)), None, failure)
  }

  /** The record the executor keeps: it drops the failure type. */
  function RecordOf(c: Call, r: ToolResult, iteration: nat): Record {
    Record(ToolOf(c), ParamsOf(c), r.success, r.error, r.data, iteration)
  }

  predicate Given(o: Option<string>) {
    o.Some? && o.value != ""
  }

  /** The customer with the id; without one, the last of those with the e-mail; without both, none. */
  lemma ResolveMeans(w: World, id: Option<string>, email: Option<string>)
    ensures var r := ResolveCustomer(w, id, email);
            && (Given(id) ==> IsLastRow(w.customers, "customer_id", Str(id.value), r))
            && (!Given(id) && Given(email) ==> IsLastRow(w.customers, "email", Str(email.value), r))
            && (!Given(id) && !Given(email) ==> r.None?)
  {
    hide IsLastRow;
    RowIsLast(w.customers, "customer_id", Text(id));
    RowIsLast(w.customers, "email", Text(email));
  }

  /** The last row with the value, or none if there is no such row. */
  ghost predicate IsLastRow(t: Table, key: string, v: Value, r: Option<Dict>) {
    if r.None? then forall i :: 0 <= i < |t| ==> Get(t[i], key) != v
    else exists k :: 0 <= k < |t| && t[k] == r.value && Get(t[k], key) == v && forall j :: k < j < |t| ==> Get(t[j], key) != v
  }

  lemma {:induction false} RowIsLast(t: Table, key: string, v: Value)
    ensures IsLastRow(t, key, v, Row(t, key, v))
  {
    if t != [] && Get(t[|t| - 1], key) != v {
      var front := t[..|t| - 1];
      RowIsLast(front, key, v);
      if Row(front, key, v).Some? {
        var k :| 0 <= k < |front| && front[k] == Row(front, key, v).value && Get(front[k], key) == v
                 && forall j :: k < j < |front| ==> Get(front[j], key) != v;
        assert t[k] == front[k];
        forall j | k < j < |t| ensures Get(t[j], key) != v { if j < |front| { assert t[j] == front[j]; } }
      } else {
        forall i | 0 <= i < |t| ensures Get(t[i], key) != v { if i < |front| { assert t[i] == front[i]; } }
      }
    }
  }

  lemma CustomerIsFound(w: World, id: Option<string>, email: Option<string>)
    ensures ResolveCustomer(w, id, email).Some? <==> Found(w, Crm(id, email))
  {
    hide Get;
    ResolveMeans(w, id, email);
  }

  lemma OrderIsFound(w: World, id: Option<string>)
    ensures Row(w.orders, "order_id", Text(id)).Some? <==> Found(w, OrderLookup(id))
  {
    hide Get;
  }

  /** The thing asked for exists. */
  predicate Found(w: World, c: Call) {
    match c
    case Crm(id, email) =>
      if Given(id) then exists c :: c in w.customers && Get(c, "customer_id") == Str(id.value)
      else Given(email) && exists c :: c in w.customers && Get(c, "email") == Str(email.value)
    case OrderLookup(id) => exists o :: o in w.orders && Get(o, "order_id") == Text(id)
    case _ => true
  }

  /** The call names nothing that the payload could be compared with. */
  predicate Unnamed(c: Call) {
    match c
    case Crm(id, _) => !Truthy(Text(id))
    case OrderLookup(id) => !Truthy(Text(id))
    case Refund(id, _, _) => id == ""
    case KbSearch(_, _) => false
  }

  // ---- tool by tool ----

  lemma CustomerIsUsable(params: Dict, c: Dict)
    requires GoodCustomer(c) && Truthy(Get(c, "customer_id"))
    ensures CrmUsable(params, c) <==> Echoes(Get(params, "customer_id"), Get(c, "customer_id"))
  {
  }

  lemma CrmSuccessDetected(w: World, id: Option<string>, email: Option<string>, params: Dict)
    requires WellFormed(w) && Get(params, "customer_id") == Text(id)
    ensures CrmUsable(params, CrmSuccess(w, id, email)) <==> ResolveCustomer(w, id, email).Some?
  {
    hide GoodCustomer;
    var resolved := ResolveCustomer(w, id, email);
    if resolved.Some? {
      hide CrmUsable;
      CustomerIsUsable(params, resolved.value);
    } else {
      hide ResolveCustomer, WellFormed;
      assert Get(CrmSuccess(w, id, email), "status") == Str("not_found");
    }
  }

  lemma CrmAmbiguousDetected(id: Option<string>, email: Option<string>, params: Dict)
    ensures !CrmUsable(params, CrmAmbiguous(id, email))
  {
    assert Get(CrmAmbiguous(id, email), "tier") == Str("unknown");
  }

  lemma OtherCustomer(w: World, id: Option<string>, email: Option<string>)
    requires WellFormed(w)
    ensures CrmWrong(w, id, email) in w.customers
    ensures Truthy(Text(id)) ==> Get(CrmWrong(w, id, email), "customer_id") != Text(id)
  {
    hide GoodCustomer, GoodOrder, Get;
    var resolved := ResolveCustomer(w, id, email);
    if resolved.Some? { OtherRowExists(w.customers, "customer_id", Get(resolved.value, "customer_id")); }
  }

  lemma CrmWrongDetected(w: World, id: Option<string>, email: Option<string>, params: Dict)
    requires WellFormed(w) && Get(params, "customer_id") == Text(id)
    ensures CrmUsable(params, CrmWrong(w, id, email)) <==> !Truthy(Text(id))
  {
    hide GoodCustomer, GoodOrder, CrmUsable, CrmWrong;
    OtherCustomer(w, id, email);
    CustomerIsUsable(params, CrmWrong(w, id, email));
  }

  lemma OrderDetects(w: World, id: Option<string>, params: Dict)
    requires WellFormed(w) && Get(params, "order_id") == Text(id)
    ensures OrderUsable(params, OrderSuccess(w, id)) <==> Row(w.orders, "order_id", Text(id)).Some?
    ensures OtherRow(w.orders, "order_id", Text(id)).Some?
    ensures OrderUsable(params, OrderWrong(w, id)) <==> !Truthy(Text(id))
  {
    hide GoodCustomer;
    OtherRowExists(w.orders, "order_id", Text(id));
    if Row(w.orders, "order_id", Text(id)).None? {
      assert Get(OrderSuccess(w, id), "status") == Str("not_found");
    }
  }

  lemma OrderAmbiguousDetected(id: Option<string>, params: Dict)
    ensures !OrderUsable(params, OrderAmbiguous(id)) && Get(OrderAmbiguous(id), "status") == Str("UNKNOWN")
  {
    assert Get(OrderAmbiguous(id), "status") == Str("UNKNOWN");
  }

  lemma RefundSuccessDetected(w: World, orderId: string, amount: real, reason: string, params: Dict)
    requires Get(params, "order_id") == Str(orderId)
    ensures RefundUsable(params, RefundSuccess(w, orderId, amount, reason))
  {
    var d := RefundSuccess(w, orderId, amount, reason);
    assert Get(d, "refund_id") == RefundId(orderId) && Get(d, "status") == Str("approved") && Get(d, "order_id") == Str(orderId);
  }

  lemma RefundWrongDetected(w: World, orderId: string, amount: real, reason: string, params: Dict)
    requires Get(params, "order_id") == Str(orderId)
    ensures RefundUsable(params, RefundWrong(w, orderId, amount, reason)) <==> orderId == ""
  {
    hide WrongOrderId;
    var d := RefundWrong(w, orderId, amount, reason);
    WrongOrderDiffers(orderId);
    assert Get(d, "refund_id") == RefundId(WrongOrderId(orderId)) && Get(d, "status") == Str("approved");
    assert Get(d, "order_id") == Str(WrongOrderId(orderId));
  }

  lemma WrongOrderDiffers(orderId: string)
    ensures WrongOrderId(orderId) != orderId
  {
    assert "ORD-9999"[4] == '9' && "ORD-8888"[4] == '8';
  }

  lemma RefundAmbiguousDetected(orderId: string, amount: real, reason: string, params: Dict)
    ensures !RefundUsable(params, RefundAmbiguous(orderId, amount, reason))
  {
    assert Get(RefundAmbiguous(orderId, amount, reason), "refund_id") == Null;
  }

  lemma KbDetects(w: World, query: string, topK: int)
    ensures KbUsable(KbSuccess(w, query, topK)) && !KbUsable(KbWrong(w, query, topK)) && !KbUsable(KbAmbiguous(w, query, topK))
  {
    assert "message" in KbWrong(w, query, topK);
    assert Get(KbAmbiguous(w, query, topK), "result_count") == Null;
    assert "message" !in KbSuccess(w, query, topK);
  }

  predicate PayloadUsable(c: Call, data: Dict) {
    match c
    case Crm(_, _) => CrmUsable(ParamsOf(c), data)
    case OrderLookup(_) => OrderUsable(ParamsOf(c), data)
    case Refund(_, _, _) => RefundUsable(ParamsOf(c), data)
    case KbSearch(_, _) => KbUsable(data)
  }

  lemma ToolNamesDiffer()
    ensures "crm" != "order_lookup" && "crm" != "refund" && "crm" != "kb_search"
    ensures "order_lookup" != "refund" && "order_lookup" != "kb_search" && "refund" != "kb_search"
  {
    assert |"crm"| == 3 && |"order_lookup"| == 12 && |"refund"| == 6 && |"kb_search"| == 9;
  }

  lemma UsableByPayload(w: World, c: Call, failure: Option<FailureType>, iteration: nat)
    requires WellFormed(w)
    ensures IsUsable(RecordOf(c, Dispatch(w, c, failure), iteration)) <==>
            failure != Some(Timeout) && PayloadUsable(c, Payload(w, c, failure))
  {
    hide CrmUsable, OrderUsable, RefundUsable, KbUsable, Payload, WellFormed, ParamsOf;
    ToolNamesDiffer();
  }

  lemma ParamsAreKept(c: Call)
    ensures c.Crm? ==> Get(ParamsOf(c), "customer_id") == Text(c.id)
    ensures c.OrderLookup? ==> Get(ParamsOf(c), "order_id") == Text(c.id)
    ensures c.Refund? ==> Get(ParamsOf(c), "order_id") == Str(c.orderId)
  {
    if c.Crm? { assert Get(ParamsOf(c), "customer_id") == Text(c.id); }
  }

  lemma FailureCases(failure: Option<FailureType>)
    ensures failure == None || failure == Some(Timeout) || failure == Some(AmbiguousData) || failure == Some(WrongResult)
  {
    if failure.Some? {
      match failure.value
      case Timeout =>
      case AmbiguousData =>
      case WrongResult =>
    }
  }

  lemma PayloadDetects(w: World, c: Call, failure: Option<FailureType>)
    requires WellFormed(w) && failure != Some(Timeout)
    ensures PayloadUsable(c, Payload(w, c, failure)) <==>
            (failure.None? && Found(w, c)) || (failure == Some(WrongResult) && Unnamed(c))
  {
    hide CrmUsable, OrderUsable, RefundUsable, KbUsable, WellFormed, ParamsOf;
    hide CrmSuccess, CrmAmbiguous, CrmWrong, OrderSuccess, OrderAmbiguous, OrderWrong, RefundSuccess, RefundAmbiguous, RefundWrong;
    hide KbSuccess, KbAmbiguous, KbWrong, ResolveCustomer;
    ParamsAreKept(c);
    var params := ParamsOf(c);
    assert failure == None || failure == Some(AmbiguousData) || failure == Some(WrongResult) by { FailureCases(failure); }
    match c
    case Crm(id, email) =>
      CustomerIsFound(w, id, email);
      CrmSuccessDetected(w, id, email, params);
      CrmAmbiguousDetected(id, email, params);
      CrmWrongDetected(w, id, email, params);
    case OrderLookup(id) =>
      OrderIsFound(w, id);
      OrderDetects(w, id, params);
      OrderAmbiguousDetected(id, params);
    case Refund(id, amount, reason) =>
      RefundSuccessDetected(w, id, amount, reason, params);
      RefundAmbiguousDetected(id, amount, reason, params);
      RefundWrongDetected(w, id, amount, reason, params);
    case KbSearch(query, topK) =>
      KbDetects(w, query, topK);
  }

  /** The check without the failure type agrees with it, a call being usable exactly when nothing was injected and the
      thing asked for exists, if and only if it is not the case that a wrong result was injected into a call that names
      nothing. For the knowledge base it always agrees. */
  lemma DetectorEqualsOracle(w: World, c: Call, failure: Option<FailureType>, iteration: nat)
    requires WellFormed(w)
    ensures (IsUsable(RecordOf(c, Dispatch(w, c, failure), iteration)) <==> failure.None? && Found(w, c)) <==>
            !(failure == Some(WrongResult) && Unnamed(c))
  {
    hide PayloadUsable, Payload, WellFormed, IsUsable, Found, Unnamed, RecordOf, Dispatch;
    UsableByPayload(w, c, failure, iteration);
    if failure != Some(Timeout) { PayloadDetects(w, c, failure); }
  }

  /** What a call without an injected failure answers: the row asked for, an approved refund of the rounded amount under a
      number made from the order's last four characters, or the best articles. */
  lemma GoodAnswers(w: World, c: Call)
    requires WellFormed(w) && Found(w, c)
    ensures var d := Payload(w, c, None);
            match c
            case Crm(id, email) =>
              && d in w.customers
              && (if Given(id) then Get(d, "customer_id") == Str(id.value) else Get(d, "email") == Str(email.value))
            case OrderLookup(id) => d in w.orders && Get(d, "order_id") == Text(id)
            case Refund(id, amount, reason) =>
              && Get(d, "order_id") == Str(id) && Get(d, "amount") == Num(w.round(amount)) && Get(d, "reason") == Str(reason)
              && Get(d, "status") == Str("approved")
              && var n := if |id| < 4 then |id| else 4;
              Get(d, "refund_id") == Str("RFND-" + id[|id| - n..] + "-9281")
            case KbSearch(query, topK) =>
              && Get(d, "query") == Str(query) && Get(d, "results") == Many(w.articles(query, topK))
              && Get(d, "result_count") == Num(|w.articles(query, topK)| as real)
  {
    hide WellFormed;
    match c
    case Crm(id, email) =>
      CustomerIsFound(w, id, email);
      ResolveMeans(w, id, email);
    case OrderLookup(id) => OrderIsFound(w, id);
    case Refund(id, amount, reason) => RefundAnswer(w, id, amount, reason);
    case KbSearch(query, topK) => SearchAnswer(w, query, topK);
  }

  lemma SearchAnswer(w: World, query: string, topK: int)
    ensures var d := KbSuccess(w, query, topK);
            && Get(d, "query") == Str(query) && Get(d, "results") == Many(w.articles(query, topK))
            && Get(d, "result_count") == Num(|w.articles(query, topK)| as real)
  {
    assert |"query"| == 5 && |"results"| == 7 && |"result_count"| == 12;
  }

  lemma RefundAnswer(w: World, id: string, amount: real, reason: string)
    ensures var d := RefundSuccess(w, id, amount, reason);
            && Get(d, "order_id") == Str(id) && Get(d, "amount") == Num(w.round(amount)) && Get(d, "reason") == Str(reason)
            && Get(d, "status") == Str("approved")
            && var n := if |id| < 4 then |id| else 4;
            Get(d, "refund_id") == Str("RFND-" + id[|id| - n..] + "-9281")
  {
    var d := RefundSuccess(w, id, amount, reason);
    assert Get(d, "refund_id") == RefundId(id) && Get(d, "status") == Str("approved") && Get(d, "order_id") == Str(id);
    assert Get(d, "amount") == Num(w.round(amount)) && Get(d, "reason") == Str(reason);
    assert id[0..] == id;
  }

  /** Which row a wrong lookup answers with: the first that is not the one asked for. */
  lemma WrongRowIsFirst(w: World, c: Call) returns (k: nat)
    requires WellFormed(w) && (c.OrderLookup? || (c.Crm? && Given(c.id) && Found(w, c)))
    ensures var d := Payload(w, c, Some(WrongResult));
            var rows, key := if c.Crm? then w.customers else w.orders, if c.Crm? then "customer_id" else "order_id";
            k < |rows| && d == rows[k] && forall j :: 0 <= j < k ==> Get(rows[j], key) == Text(c.id)
  {
    hide GoodCustomer, GoodOrder;
    if c.Crm? {
      ResolveMeans(w, c.id, c.email);
      CustomerIsFound(w, c.id, c.email);
      OtherRowExists(w.customers, "customer_id", Text(c.id));
      k := OtherRowIsFirst(w.customers, "customer_id", Text(c.id));
    } else {
      OtherRowExists(w.orders, "order_id", Text(c.id));
      k := OtherRowIsFirst(w.orders, "order_id", Text(c.id));
    }
  }

  /** What an ambiguous result says: the request again, and no more than that. */
  lemma DoubtfulAnswers(w: World, c: Call)
    requires WellFormed(w)
    ensures var d := Payload(w, c, Some(AmbiguousData));
            match c
            case Crm(id, email) =>
              Get(d, "customer_id") == Text(id) && Get(d, "email") == Text(email) && Get(d, "lifetime_value") == Null
            case OrderLookup(id) => Get(d, "order_id") == Text(id) && Get(d, "status") == Str("UNKNOWN")
            case Refund(id, amount, reason) =>
              && Get(d, "order_id") == Str(id) && Get(d, "amount") == Num(amount) && Get(d, "reason") == Str(reason)
              && Get(d, "refund_id") == Null && Get(d, "status") == Str("pending_review")
            case KbSearch(query, topK) =>
              && Get(d, "query") == Str(query) && Get(d, "result_count") == Null
              && Get(d, "results") == Many(if topK <= 0 then [] else [w.placeholder])
  {
    hide WellFormed, CrmAmbiguous, OrderAmbiguous, RefundAmbiguous, KbAmbiguous, Get;
    match c
    case Crm(id, email) => DoubtfulProfile(id, email);
    case OrderLookup(id) => DoubtfulOrder(id);
    case Refund(id, amount, reason) => DoubtfulRefund(id, amount, reason);
    case KbSearch(query, topK) => DoubtfulSearch(w, query, topK);
  }

  /** What a fruitless lookup says: the request again, and that nothing was found. */
  lemma FruitlessAnswers(w: World, c: Call)
    requires WellFormed(w) && !Found(w, c)
    ensures var d := Payload(w, c, None);
            && Get(d, "status") == Str("not_found")
            && (c.Crm? ==> Get(d, "customer_id") == Text(c.id) && Get(d, "email") == Text(c.email))
            && (c.OrderLookup? ==> Get(d, "order_id") == Text(c.id))
  {
    hide WellFormed, CrmSuccess, OrderSuccess, Get, ResolveCustomer;
    match c
    case Crm(id, email) =>
      CustomerIsFound(w, id, email);
      NoProfile(w, id, email);
    case OrderLookup(id) =>
      OrderIsFound(w, id);
      NoOrder(w, id);
    case _ =>
  }

  lemma DoubtfulProfile(id: Option<string>, email: Option<string>)
    ensures var d := CrmAmbiguous(id, email);
            Get(d, "customer_id") == Text(id) && Get(d, "email") == Text(email) && Get(d, "lifetime_value") == Null
  {
    assert |"customer_id"| == 11 && |"email"| == 5 && |"lifetime_value"| == 14;
    assert Get(CrmAmbiguous(id, email), "email") == Text(email);
    assert Get(CrmAmbiguous(id, email), "customer_id") == Text(id);
  }

  lemma NoProfile(w: World, id: Option<string>, email: Option<string>)
    requires ResolveCustomer(w, id, email).None?
    ensures var d := CrmSuccess(w, id, email);
            Get(d, "status") == Str("not_found") && Get(d, "customer_id") == Text(id) && Get(d, "email") == Text(email)
  {
    hide ResolveCustomer;
    assert |"customer_id"| == 11 && |"email"| == 5 && |"status"| == 6 && |"message"| == 7;
  }

  lemma DoubtfulOrder(id: Option<string>)
    ensures var d := OrderAmbiguous(id); Get(d, "order_id") == Text(id) && Get(d, "status") == Str("UNKNOWN")
  {
    assert Get(OrderAmbiguous(id), "order_id") == Text(id);
    assert Get(OrderAmbiguous(id), "status") == Str("UNKNOWN");
  }

  lemma NoOrder(w: World, id: Option<string>)
    requires Row(w.orders, "order_id", Text(id)).None?
    ensures var d := OrderSuccess(w, id); Get(d, "status") == Str("not_found") && Get(d, "order_id") == Text(id)
  {
    assert |"order_id"| == 8 && |"status"| == 6 && |"message"| == 7;
  }

  lemma DoubtfulRefund(id: string, amount: real, reason: string)
    ensures var d := RefundAmbiguous(id, amount, reason);
            && Get(d, "order_id") == Str(id) && Get(d, "amount") == Num(amount) && Get(d, "reason") == Str(reason)
            && Get(d, "refund_id") == Null && Get(d, "status") == Str("pending_review")
  {
    var d := RefundAmbiguous(id, amount, reason);
    assert Get(d, "order_id") == Str(id) && Get(d, "amount") == Num(amount);
    assert Get(d, "reason") == Str(reason) && Get(d, "refund_id") == Null && Get(d, "status") == Str("pending_review");
  }

  lemma DoubtfulSearch(w: World, query: string, topK: int)
    ensures var d := KbAmbiguous(w, query, topK);
            && Get(d, "query") == Str(query) && Get(d, "result_count") == Null
            && Get(d, "results") == Many(if topK <= 0 then [] else [w.placeholder])
  {
    assert |"query"| == 5 && |"results"| == 7 && |"result_count"| == 12 && |"message"| == 7;
  }

  /** A wrong result is about something else: another customer or order of the tables, or half the amount for another
      order. */
  lemma WrongAnswers(w: World, c: Call)
    requires WellFormed(w)
    ensures var d := Payload(w, c, Some(WrongResult));
            match c
            case Crm(id, email) => d in w.customers && (Given(id) ==> Get(d, "customer_id") != Str(id.value))
            case OrderLookup(id) => d in w.orders && Get(d, "order_id") != Text(id)
            case Refund(id, amount, reason) =>
              && Get(d, "order_id") != Str(id) && Get(d, "order_id") in {Str("ORD-9999"), Str("ORD-8888")}
              && Get(d, "amount") == Num(w.round(amount * 0.5))
            case KbSearch(query, topK) => Get(d, "results") == Many(w.unrelated(query, topK)) && "message" in d
  {
    match c
    case Crm(id, email) => hide GoodCustomer; OtherCustomer(w, id, email);
    case OrderLookup(id) => hide GoodCustomer; OtherRowExists(w.orders, "order_id", Text(id));
    case Refund(id, amount, reason) => hide WellFormed; WrongRefund(w, id, amount, reason);
    case KbSearch(query, topK) => hide WellFormed; assert |"results"| == 7 && |"result_count"| == 12 && |"message"| == 7;
  }

  lemma WrongRefund(w: World, id: string, amount: real, reason: string)
    ensures var d := RefundWrong(w, id, amount, reason);
            && Get(d, "order_id") == Str(WrongOrderId(id)) != Str(id) && Get(d, "amount") == Num(w.round(amount * 0.5))
  {
    WrongOrderDiffers(id);
    var d := RefundWrong(w, id, amount, reason);
    assert Get(d, "order_id") == Str(WrongOrderId(id));
    assert Get(d, "amount") == Num(w.round(amount * 0.5));
  }

  // ---- the critic's guess at the kind of failure ----

  function NameOf(f: FailureType): string {
    match f
    case Timeout => "timeout"
    case AmbiguousData => "ambiguous_data"
    case WrongResult => "wrong_result"
  }

  lemma FailureNamesDiffer()
    ensures "timeout" != "ambiguous_data" && "timeout" != "wrong_result" && "ambiguous_data" != "wrong_result"
  {
    assert |"timeout"| == 7 && |"ambiguous_data"| == 14 && |"wrong_result"| == 12;
  }

  /** The marks the guess goes by. */
  predicate Marked(d: Dict) {
    Get(d, "status") == Str("UNKNOWN") || Truthy(Get(d, "note"))
  }

  lemma WrongIsUnmarked(w: World, c: Call)
    requires WellFormed(w)
    ensures !Marked(Payload(w, c, Some(WrongResult)))
  {
    match c
    case Crm(id, email) => UnmarkedCustomer(w, id, email);
    case OrderLookup(id) => OtherRowExists(w.orders, "order_id", Text(id));
    case Refund(id, amount, reason) =>
      hide WellFormed, WrongOrderId;
      assert Get(RefundWrong(w, id, amount, reason), "status") == Str("approved");
      assert "note" !in RefundWrong(w, id, amount, reason);
    case KbSearch(query, topK) =>
      hide WellFormed;
      assert "status" !in KbWrong(w, query, topK) && "note" !in KbWrong(w, query, topK);
  }

  lemma UnmarkedCustomer(w: World, id: Option<string>, email: Option<string>)
    requires WellFormed(w)
    ensures !Marked(CrmWrong(w, id, email))
  {
    hide CrmWrong;
    OtherCustomer(w, id, email);
    assert GoodCustomer(CrmWrong(w, id, email));
  }

  lemma CrmAmbiguousUnmarked(id: Option<string>, email: Option<string>)
    ensures !Marked(CrmAmbiguous(id, email))
  {
    assert "status" !in CrmAmbiguous(id, email);
    assert "note" !in CrmAmbiguous(id, email);
  }

  lemma RefundAmbiguousUnmarked(orderId: string, amount: real, reason: string)
    ensures !Marked(RefundAmbiguous(orderId, amount, reason))
  {
    assert Get(RefundAmbiguous(orderId, amount, reason), "status") == Str("pending_review");
    assert "note" !in RefundAmbiguous(orderId, amount, reason);
  }

  lemma KbAmbiguousUnmarked(w: World, query: string, topK: int)
    ensures !Marked(KbAmbiguous(w, query, topK))
  {
    assert "status" !in KbAmbiguous(w, query, topK);
    assert "note" !in KbAmbiguous(w, query, topK);
  }

  lemma AmbiguousMarks(w: World, c: Call)
    requires WellFormed(w)
    ensures Marked(Payload(w, c, Some(AmbiguousData))) <==> c.OrderLookup?
  {
    hide WellFormed, CrmAmbiguous, RefundAmbiguous, KbAmbiguous;
    match c
    case Crm(id, email) => CrmAmbiguousUnmarked(id, email);
    case OrderLookup(id) => OrderAmbiguousDetected(id, map[]);
    case Refund(id, amount, reason) => RefundAmbiguousUnmarked(id, amount, reason);
    case KbSearch(query, topK) => KbAmbiguousUnmarked(w, query, topK);
  }

  /** The critic names the injected failure exactly when it is not ambiguous data from a tool other than the order
      lookup, which it takes for a wrong result. */
  lemma CriticNamesFailures(w: World, c: Call, failure: FailureType, iteration: nat)
    requires WellFormed(w)
    ensures ClassifyFailure(RecordOf(c, Dispatch(w, c, Some(failure)), iteration)) == NameOf(failure) <==>
            !(failure == AmbiguousData && !c.OrderLookup?)
  {
    hide Payload, WellFormed, Get;
    FailureNamesDiffer();
    WrongIsUnmarked(w, c);
    AmbiguousMarks(w, c);
  }
}
