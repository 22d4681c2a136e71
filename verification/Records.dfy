/** Tool results, tool-call records and the oracle-free usability check (src/models/executor.py). */
module Records {
  import opened Values

  datatype FailureType = Timeout | AmbiguousData | WrongResult

  /** What a tool returns. `failureType` is evaluation metadata; no record carries it. */
  datatype ToolResult = ToolResult(
    success: bool, data: Option<Dict>, error: Option<string>, failureType: Option<FailureType>)

  datatype Record = Record(
    tool: string, params: Dict, success: bool, error: Option<string>, data: Option<Dict>, iteration: nat)

  /** A requested identifier binds only when it is truthy. */
  predicate Echoes(requested: Value, returned: Value) {
    Truthy(requested) ==> returned == requested
  }

  predicate MarkedBad(status: Value) {
    status == Str("not_found") || status == Str("UNKNOWN")
  }

  predicate CrmUsable(params: Dict, data: Dict) {
    && Truthy(Get(data, "customer_id")) && Get(data, "customer_id") != Str("not_found")
    && !MarkedBad(Get(data, "status"))
    && Get(data, "tier") != Str("unknown") && Get(data, "lifetime_value") != Null
    && Echoes(Get(params, "customer_id"), Get(data, "customer_id"))
  }

  predicate OrderUsable(params: Dict, data: Dict) {
    && Truthy(Get(data, "order_id"))
    && !MarkedBad(Get(data, "status"))
    && Echoes(Get(params, "order_id"), Get(data, "order_id"))
  }

  predicate RefundUsable(params: Dict, data: Dict) {
    && Get(data, "status") == Str("approved") && Truthy(Get(data, "refund_id"))
    && Echoes(Get(params, "order_id"), Get(data, "order_id"))
  }

  predicate KbUsable(data: Dict) {
    Get(data, "result_count") != Null && "message" !in data
  }

  /** `ToolCallRecord.is_usable`. */
  predicate IsUsable(r: Record) {
    var data := OrEmpty(r.data);
    && r.success
    && (r.tool == "crm" ==> CrmUsable(r.params, data))
    && (r.tool == "order_lookup" ==> OrderUsable(r.params, data))
    && (r.tool == "refund" ==> RefundUsable(r.params, data))
    && (r.tool == "kb_search" ==> KbUsable(data))
  }

  /** `_classify_failure`: a failure category predicted from the record alone. */
  function ClassifyFailure(r: Record): string {
    var data := OrEmpty(r.data);
    if !r.success then "timeout"
    else if Get(data, "status") == Str("UNKNOWN") || Truthy(Get(data, "note")) then "ambiguous_data"
    else "wrong_result"
  }
}
