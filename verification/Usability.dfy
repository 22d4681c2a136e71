/** What the usability check depends on: which changes to a usable result it notices, and which it does not. */
module Usability {
  import opened Values
  import opened Records

  /** The record with one field of its payload changed. */
  function Changed(r: Record, key: string, v: Value): Record {
    r.(data := Some(OrEmpty(r.data)[key := v]))
  }

  /** The record with one field of its payload taken out. */
  function Without(r: Record, key: string): Record {
    r.(data := Some(OrEmpty(r.data) - {key}))
  }

  /** The value answers what was asked for under `key`, if anything was. */
  predicate Answers(r: Record, key: string, v: Value) {
    Truthy(Get(r.params, key)) ==> v == Get(r.params, key)
  }

  lemma GetChanged(d: Dict, key: string, v: Value, other: string)
    ensures Get(d[key := v], other) == if other == key then v else Get(d, other)
    ensures Get(d - {key}, other) == if other == key then Null else Get(d, other)
  {
  }

  lemma CrmKeys()
    ensures "customer_id" != "status" && "customer_id" != "tier" && "customer_id" != "lifetime_value"
    ensures "status" != "tier" && "status" != "lifetime_value" && "tier" != "lifetime_value"
  {
    assert |"customer_id"| == 11 && |"status"| == 6 && |"tier"| == 4 && |"lifetime_value"| == 14;
  }

  /** A usable profile stays usable under any change except: another or no customer, one of the two bad states, an unknown
      tier, no lifetime value. */
  lemma CrmNotices(r: Record, key: string, v: Value)
    requires r.tool == "crm" && IsUsable(r)
    ensures IsUsable(Changed(r, key, v)) <==>
              && (key == "customer_id" ==> Truthy(v) && v != Str("not_found") && Answers(r, "customer_id", v))
              && (key == "status" ==> v != Str("not_found") && v != Str("UNKNOWN"))
              && (key == "tier" ==> v != Str("unknown")) && (key == "lifetime_value" ==> v != Null)
    ensures IsUsable(Without(r, key)) <==> key != "customer_id" && key != "lifetime_value"
  {
    hide Get, Truthy;
    var d := OrEmpty(r.data);
    CrmKeys();
    ToolsDiffer();
    GetChanged(d, key, v, "customer_id");
    GetChanged(d, key, v, "status");
    GetChanged(d, key, v, "tier");
    GetChanged(d, key, v, "lifetime_value");
    NullIsFalse();
  }

  lemma NullIsFalse()
    ensures !Truthy(Null)
  {
  }

  lemma ToolsDiffer()
    ensures "crm" != "order_lookup" && "crm" != "refund" && "crm" != "kb_search"
    ensures "order_lookup" != "refund" && "order_lookup" != "kb_search" && "refund" != "kb_search"
  {
    assert |"crm"| == 3 && |"order_lookup"| == 12 && |"refund"| == 6 && |"kb_search"| == 9;
  }

  /** A usable lookup: another or no order, one of the two bad states. */
  lemma LookupNotices(r: Record, key: string, v: Value)
    requires r.tool == "order_lookup" && IsUsable(r)
    ensures IsUsable(Changed(r, key, v)) <==>
              && (key == "order_id" ==> Truthy(v) && Answers(r, "order_id", v))
              && (key == "status" ==> v != Str("not_found") && v != Str("UNKNOWN"))
    ensures IsUsable(Without(r, key)) <==> key != "order_id"
  {
    hide Get, Truthy;
    var d := OrEmpty(r.data);
    ToolsDiffer();
    assert |"order_id"| == 8 && |"status"| == 6;
    GetChanged(d, key, v, "order_id");
    GetChanged(d, key, v, "status");
    NullIsFalse();
  }

  /** A usable refund: any state but approved, no refund number, another order. */
  lemma RefundNotices(r: Record, key: string, v: Value)
    requires r.tool == "refund" && IsUsable(r)
    ensures IsUsable(Changed(r, key, v)) <==>
              && (key == "status" ==> v == Str("approved")) && (key == "refund_id" ==> Truthy(v))
              && (key == "order_id" ==> Answers(r, "order_id", v))
    ensures IsUsable(Without(r, key)) <==>
              key != "status" && key != "refund_id" && (key == "order_id" ==> !Truthy(Get(r.params, "order_id")))
  {
    hide Get, Truthy;
    var d := OrEmpty(r.data);
    ToolsDiffer();
    assert |"order_id"| == 8 && |"status"| == 6 && |"refund_id"| == 9;
    GetChanged(d, key, v, "order_id");
    GetChanged(d, key, v, "status");
    GetChanged(d, key, v, "refund_id");
    NullIsFalse();
  }

  /** A usable search: no result count, any message. */
  lemma SearchNotices(r: Record, key: string, v: Value)
    requires r.tool == "kb_search" && IsUsable(r)
    ensures IsUsable(Changed(r, key, v)) <==> (key == "result_count" ==> v != Null) && key != "message"
    ensures IsUsable(Without(r, key)) <==> key != "result_count"
  {
    var d := OrEmpty(r.data);
    ToolsDiffer();
    assert |"result_count"| == 12 && |"message"| == 7;
    GetChanged(d, key, v, "result_count");
  }

  /** No failed call is usable, and of a tool the check does not know every successful one is. */
  lemma OthersNeedSuccess(r: Record)
    requires r.tool != "crm" && r.tool != "order_lookup" && r.tool != "refund" && r.tool != "kb_search"
    ensures IsUsable(r) <==> r.success
  {
  }

  /** The iteration, the error and what was asked for beyond the identifier make no difference. */
  lemma OnlyTheAnswerCounts(r: Record, q: Record)
    requires q.tool == r.tool && q.success == r.success && q.data == r.data
    requires Get(q.params, "customer_id") == Get(r.params, "customer_id") && Get(q.params, "order_id") == Get(r.params, "order_id")
    ensures IsUsable(q) <==> IsUsable(r)
  {
  }

  /** The values Python takes for false. */
  lemma FalseValues(v: Value)
    ensures !Truthy(v) <==> v in {Null, Bool(false), Num(0.0), Str(""), Many([])}
  {
  }

  /** A conversion fails exactly for nothing, for lists and for texts that are no numerals; numbers stay as they are, and
      the truth values count as one and zero. */
  lemma FloatOf(parse: string -> Option<real>, v: Value)
    ensures ToFloat(parse, v).None? <==> v == Null || v.Many? || (v.Str? && parse(v.text).None?)
    ensures v.Num? ==> ToFloat(parse, v) == Some(v.number)
    ensures v.Str? ==> ToFloat(parse, v) == parse(v.text)
    ensures ToFloat(parse, Bool(true)) == Some(1.0) && ToFloat(parse, Bool(false)) == Some(0.0)
  {
  }
}
