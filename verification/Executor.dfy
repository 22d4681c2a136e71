/** The executor agent (src/agents/executor.py): dependency-gated dispatch with context threading. */
module Executor {
  import opened Values
  import opened Records
  import opened Dag
  import opened Ordering

  /** The world one ticket runs in. `tools` answers a dispatch from the calls made so far, the tool and its
      parameters, so a theorem for every `tools` covers every behaviour of stateful tools. `prepare` and `usable`
      are parameters because the production and research loops differ in them. */
  datatype Env = Env(
    useLlm: bool,
    prepare: (string, Dict) -> Dict,
    usable: Record -> bool,
    tools: (seq<Record>, string, Dict) -> ToolResult,
    parseFloat: string -> Option<real>)

  /** `_prepare_params`. The amount read from a context is always a number (`Provenance.AmountIsNumeric`), so the
      ValueError of `float` cannot arise and its branch is a default. */
  function PrepareParams(parse: string -> Option<real>, tool: string, context: Dict): Dict {
    if tool == "crm" then
      map["customer_id" := Get(context, "customer_id"), "email" := Get(context, "email")]
    else if tool == "order_lookup" then
      map["order_id" := GetOr(context, "order_id", Str(""))]
    else if tool == "refund" then
      var raw := Get(context, "amount");
      var amount := if raw == Null then 0.0 else match ToFloat(parse, raw) case Some(n) => n case None => 0.0;
      map["order_id" := GetOr(context, "order_id", Str("")), "amount" := Num(amount),
          "reason" := GetOr(context, "refund_reason", Str("customer request"))]
    else if tool == "kb_search" then
      map["query" := GetOr(context, "customer_message", Str("")), "top_k" := Num(3.0)]
    else map[]
  }

  /** `_update_context`: the entries a result contributes. It looks at success, never at usability. */
  function UpdateContext(parse: string -> Option<real>, r: Record): Dict {
    var data := OrEmpty(r.data);
    if !r.success || data == map[] then map[]
    else if r.tool == "crm" then
      var id := Get(data, "customer_id");
      if Truthy(id) && id != Str("not_found") && !MarkedBad(Get(data, "status")) then
        map["customer_id" := id, "email" := GetOr(data, "email", Str(""))]
      else map[]
    else if r.tool == "order_lookup" then
      if !Truthy(Get(data, "order_id")) then map[]
      else
        var echoed: Dict := map["order_id" := Get(data, "order_id")];
        var raw := Get(data, "total_amount");
        if raw == Null then echoed
        else match ToFloat(parse, raw) case Some(n) => echoed["amount" := Num(n)] case None => echoed
    else map[]
  }

  /** The tools with a usable record. */
  function UsableTools(env: Env, calls: seq<Record>): (r: set<string>)
  {
    set c | c in calls && env.usable(c) :: c.tool
  }

  /** The executor's working state: the context, and every call of the ticket so far. */
  datatype Trace = Trace(context: Dict, calls: seq<Record>)

  function Dispatch(env: Env, iteration: nat, tool: string, t: Trace): Record {
    var params := env.prepare(tool, t.context);
    var result := env.tools(t.calls, tool, params);
    Record(tool, params, result.success, result.error, result.data, iteration)
  }

  function Append(env: Env, t: Trace, r: Record): Trace {
    Trace(t.context + UpdateContext(env.parseFloat, r), t.calls + [r])
  }

  function ExecTool(env: Env, iteration: nat, tool: string, t: Trace): Trace {
    if DependenciesOf(tool) <= UsableTools(env, t.calls)
    then Append(env, t, Dispatch(env, iteration, tool, t))
    else t
  }

  /** Dispatching a list of tools in order. */
  function ExecTools(env: Env, iteration: nat, tools: seq<string>, t: Trace): Trace {
    if tools == [] then t else ExecTools(env, iteration, tools[1..], ExecTool(env, iteration, tools[0], t))
  }

  // ---- the imperative executor ----

  lemma UsableToolsAppend(env: Env, calls: seq<Record>, r: Record)
    ensures UsableTools(env, calls + [r]) == UsableTools(env, calls) + (if env.usable(r) then {r.tool} else {})
  {
    assert forall c :: c in calls + [r] <==> c in calls || c == r;
  }

  lemma ExecToolsStep(env: Env, iteration: nat, tools: seq<string>, k: nat, t: Trace)
    requires k < |tools|
    ensures ExecTools(env, iteration, tools[k..], t) ==
            ExecTools(env, iteration, tools[k + 1..], ExecTool(env, iteration, tools[k], t))
  {
    assert tools[k..][1..] == tools[k + 1..];
  }

  lemma {:induction false} ExecToolsAppend(env: Env, iteration: nat, a: seq<string>, b: seq<string>, t: Trace)
    ensures ExecTools(env, iteration, a + b, t) == ExecTools(env, iteration, b, ExecTools(env, iteration, a, t))
  {
    if a == [] {
      assert a + b == b;
    } else {
      ExecToolsAppend(env, iteration, a[1..], b, ExecTool(env, iteration, a[0], t));
      assert (a + b)[1..] == a[1..] + b;
    }
  }

  /** One layer of `_run`. */
  method RunLayer(env: Env, iteration: nat, layer: seq<string>, ghost start: Trace, prior: seq<Record>,
                  context: Dict, succeeded: set<string>, made: seq<Record>)
    returns (context': Dict, succeeded': set<string>, made': seq<Record>)
    requires start == Trace(context, prior + made) && succeeded == UsableTools(env, prior + made)
    ensures Trace(context', prior + made') == ExecTools(env, iteration, layer, start)
    ensures succeeded' == UsableTools(env, prior + made')
  {
    context', succeeded', made' := context, succeeded, made;
    assert layer[0..] == layer;
    for k := 0 to |layer|
      invariant succeeded' == UsableTools(env, prior + made')
      invariant ExecTools(env, iteration, layer, start) ==
                ExecTools(env, iteration, layer[k..], Trace(context', prior + made'))
    {
      var tool := layer[k];
      ExecToolsStep(env, iteration, layer, k, Trace(context', prior + made'));
      if DependenciesOf(tool) <= succeeded' {
        var params := env.prepare(tool, context');
        var result := env.tools(prior + made', tool, params);
        var record := Record(tool, params, result.success, result.error, result.data, iteration);
        UsableToolsAppend(env, prior + made', record);
        assert prior + (made' + [record]) == (prior + made') + [record];
        made' := made' + [record];
        context' := context' + UpdateContext(env.parseFloat, record);
        if env.usable(record) { succeeded' := succeeded' + {tool}; }
      }
    }
  }

  /** `_run`: every layer in order. What it computes depends on the plan only through its dispatch order. */
  method Run(env: Env, iteration: nat, plan: Layers, prior: seq<Record>, startContext: Dict)
    returns (made: seq<Record>, context: Dict)
    ensures Trace(context, prior + made) == ExecTools(env, iteration, Flatten(plan), Trace(startContext, prior))
  {
    made, context := [], startContext;
    var succeeded := UsableTools(env, prior);
    ghost var start := Trace(startContext, prior);
    assert prior + made == prior && plan[0..] == plan;
    for k := 0 to |plan|
      invariant succeeded == UsableTools(env, prior + made)
      invariant ExecTools(env, iteration, Flatten(plan), start) ==
                ExecTools(env, iteration, Flatten(plan[k..]), Trace(context, prior + made))
    {
      ghost var now := Trace(context, prior + made);
      ExecToolsAppend(env, iteration, plan[k], Flatten(plan[k + 1..]), now);
      assert plan[k..][0] == plan[k] && plan[k..][1..] == plan[k + 1..];
      context, succeeded, made := RunLayer(env, iteration, plan[k], now, prior, context, succeeded, made);
    }
  }

  // ---- what dispatching a list of tools does, for any world ----

  /** The calls of `t'` made after `t`. */
  function Fresh(t: Trace, t': Trace): seq<Record>
    requires |t.calls| <= |t'.calls|
  {
    t'.calls[|t.calls|..]
  }

  /** Dispatching only adds calls: of this iteration, to listed tools, at most one for each listed entry. */
  lemma {:induction false} ExecToolsExtends(env: Env, iteration: nat, tools: seq<string>, t: Trace)
    ensures var t' := ExecTools(env, iteration, tools, t);
            && |t.calls| <= |t'.calls| <= |t.calls| + |tools|
            && t.calls == t'.calls[..|t.calls|]
            && forall c :: c in Fresh(t, t') ==> c.tool in tools && c.iteration == iteration
  {
    if tools != [] {
      var t1 := ExecTool(env, iteration, tools[0], t);
      var t' := ExecTools(env, iteration, tools[1..], t1);
      ExecToolsExtends(env, iteration, tools[1..], t1);
      if t1 != t {
        assert Fresh(t, t') == [t1.calls[|t.calls|]] + Fresh(t1, t');
        assert t1.calls[..|t.calls|] == t.calls;
      }
    }
  }

  /** A duplicate-free list dispatches no tool twice. */
  lemma {:induction false} ExecToolsDistinct(env: Env, iteration: nat, tools: seq<string>, t: Trace)
    requires NoDup(tools)
    ensures var t' := ExecTools(env, iteration, tools, t);
            && |t.calls| <= |t'.calls|
            && forall i, j :: |t.calls| <= i < j < |t'.calls| ==> t'.calls[i].tool != t'.calls[j].tool
  {
    if tools != [] {
      var t1 := ExecTool(env, iteration, tools[0], t);
      var t' := ExecTools(env, iteration, tools[1..], t1);
      ExecToolsExtends(env, iteration, tools, t);
      ExecToolsExtends(env, iteration, tools[1..], t1);
      ExecToolsDistinct(env, iteration, tools[1..], t1);
      forall i, j | |t.calls| <= i < j < |t'.calls| ensures t'.calls[i].tool != t'.calls[j].tool {
        if i < |t1.calls| {
          assert t'.calls[i] == t1.calls[i];
          assert t'.calls[j] in Fresh(t1, t');
        }
      }
    }
  }

  /** Every listed tool has its dependencies among `done` or listed earlier. */
  predicate Gated(tools: seq<string>, done: set<string>) {
    forall i :: 0 <= i < |tools| ==> DependenciesOf(tools[i]) <= done + Elements(tools[..i])
  }

  lemma GatedTail(tools: seq<string>, done: set<string>)
    requires tools != [] && Gated(tools, done)
    ensures Gated(tools[1..], done + {tools[0]})
  {
    var rest := tools[1..];
    forall i | 0 <= i < |rest| ensures DependenciesOf(rest[i]) <= done + {tools[0]} + Elements(rest[..i]) {
      assert DependenciesOf(tools[i + 1]) <= done + Elements(tools[..i + 1]);
      assert tools[..i + 1] == [tools[0]] + rest[..i];
    }
  }

  lemma GatedHeadRuns(env: Env, iteration: nat, tools: seq<string>, t: Trace)
    requires tools != [] && Gated(tools, UsableTools(env, t.calls))
    ensures ExecTool(env, iteration, tools[0], t) == Append(env, t, Dispatch(env, iteration, tools[0], t))
  {
    assert tools[..0] == [];
  }

  lemma FreshOfHead(env: Env, iteration: nat, tools: seq<string>, t: Trace)
    requires tools != [] && ExecTool(env, iteration, tools[0], t) == Append(env, t, Dispatch(env, iteration, tools[0], t))
    ensures var r := Dispatch(env, iteration, tools[0], t);
            var t1 := Append(env, t, r);
            var t' := ExecTools(env, iteration, tools, t);
            && t' == ExecTools(env, iteration, tools[1..], t1)
            && |t1.calls| == |t.calls| + 1 <= |t'.calls|
            && Fresh(t, t') == [r] + Fresh(t1, t')
            && t'.calls[|t.calls|] == r
  {
    var r := Dispatch(env, iteration, tools[0], t);
    var t1 := Append(env, t, r);
    var t' := ExecTools(env, iteration, tools[1..], t1);
    ExecToolsExtends(env, iteration, tools[1..], t1);
    SplitAtNext(t.calls, r, t'.calls);
  }

  lemma SplitAtNext(a: seq<Record>, r: Record, whole: seq<Record>)
    requires |a| < |whole| && whole[..|a| + 1] == a + [r]
    ensures whole[|a|] == r && whole[|a|..] == [r] + whole[|a| + 1..]
  {
    assert whole[|a|] == whole[..|a| + 1][|a|];
  }

  /** A gated list whose calls all come back usable leaves every listed tool usable. */
  lemma {:induction false} AllUsable(env: Env, iteration: nat, tools: seq<string>, t: Trace)
    requires Gated(tools, UsableTools(env, t.calls))
    requires |t.calls| <= |ExecTools(env, iteration, tools, t).calls|
    requires forall c :: c in Fresh(t, ExecTools(env, iteration, tools, t)) ==> env.usable(c)
    ensures UsableTools(env, ExecTools(env, iteration, tools, t).calls) == UsableTools(env, t.calls) + Elements(tools)
  {
    if tools != [] {
      var r := Dispatch(env, iteration, tools[0], t);
      GatedHeadRuns(env, iteration, tools, t);
      FreshOfHead(env, iteration, tools, t);
      assert env.usable(r);
      UsableToolsAppend(env, t.calls, r);
      GatedTail(tools, UsableTools(env, t.calls));
      AllUsable(env, iteration, tools[1..], Append(env, t, r));
      assert Elements(tools) == {tools[0]} + Elements(tools[1..]);
    }
  }

  /** And no listed tool is skipped on the way. */
  lemma {:induction false} NothingSkipped(env: Env, iteration: nat, tools: seq<string>, t: Trace)
    requires Gated(tools, UsableTools(env, t.calls))
    requires |t.calls| <= |ExecTools(env, iteration, tools, t).calls|
    requires forall c :: c in Fresh(t, ExecTools(env, iteration, tools, t)) ==> env.usable(c)
    ensures var made := Fresh(t, ExecTools(env, iteration, tools, t));
            |made| == |tools| && forall i :: 0 <= i < |tools| ==> made[i].tool == tools[i]
  {
    if tools != [] {
      var r := Dispatch(env, iteration, tools[0], t);
      GatedHeadRuns(env, iteration, tools, t);
      FreshOfHead(env, iteration, tools, t);
      assert env.usable(r);
      UsableToolsAppend(env, t.calls, r);
      GatedTail(tools, UsableTools(env, t.calls));
      NothingSkipped(env, iteration, tools[1..], Append(env, t, r));
    }
  }

  // ---- plans that leave nothing behind ----

  /** Every tool's dependencies are present too. */
  predicate Closed(tools: set<string>) {
    forall t :: t in tools ==> DependenciesOf(t) <= tools
  }

  predicate LookupFirst(order: seq<string>) {
    forall i, j :: 0 <= i < |order| && 0 <= j < |order| && order[i] == "order_lookup" && order[j] == "refund" ==> i < j
  }

  lemma LayerOrderLooksUpFirst(order: seq<string>)
    requires InLayerOrder(order)
    ensures LookupFirst(order)
  {
    KnownLayers();
  }

  /** A duplicate-free dispatch order in which a tool never precedes its dependency is gated, given that a missing
      dependency is already done. */
  lemma OrderIsGated(order: seq<string>, done: set<string>)
    requires "refund" in order ==> "order_lookup" in Elements(order) + done
    requires LookupFirst(order)
    ensures Gated(order, done)
  {
    forall j | 0 <= j < |order| && order[j] == "refund" ensures "order_lookup" in done + Elements(order[..j]) {
      assert order[j] in order;
      if "order_lookup" !in done {
        assert "order_lookup" in Elements(order);
        var i :| 0 <= i < |order| && order[i] == "order_lookup";
        assert order[..j][i] == "order_lookup";
      }
    }
  }

  /** The deterministic plan of a pending set is gated. */
  lemma FallbackIsGated(pending: set<string>, done: set<string>)
    requires "refund" in pending ==> "order_lookup" in pending + done
    ensures Gated(Flatten(FromPendingTools(pending)), done)
  {
    var order := Flatten(FromPendingTools(pending));
    FallbackCoversOnce(pending);
    LayerOrderLooksUpFirst(order);
    assert forall t :: t in order <==> t in Elements(order);
    OrderIsGated(order, done);
  }

  /** So is any duplicate-free, dependency-closed plan that passes `is_dependency_ordered`. */
  lemma OrderedPlanIsGated(plan: Layers)
    requires NoDup(Flatten(plan)) && Closed(Elements(Flatten(plan))) && DependencyOrdered(plan)
    ensures Gated(Flatten(plan), {})
  {
    var order := Flatten(plan);
    OrderedMeans(plan);
    forall i, j | 0 <= i < |order| && 0 <= j < |order| && order[i] == "order_lookup" && order[j] == "refund"
      ensures i < j
    {
      var o, r := LastLayer(plan, "order_lookup"), LastLayer(plan, "refund");
      var a := LayerOfPosition(plan, i);
      var b := LayerOfPosition(plan, j);
      if j <= i { LaterLayerLaterPosition(plan, o, r, i, j); }
    }
    assert forall t :: t in order <==> t in Elements(order);
    OrderIsGated(order, {});
  }

  lemma {:induction false} LayerOfPosition(plan: Layers, i: nat) returns (k: nat)
    requires i < |Flatten(plan)|
    ensures k < |plan| && Flatten(plan)[i] in plan[k]
  {
    if i < |plan[0]| {
      k := 0;
    } else {
      k := LayerOfPosition(plan[1..], i - |plan[0]|);
      k := k + 1;
    }
  }

  /** In a duplicate-free plan, a tool of layer o < r is dispatched before a tool of layer r. */
  lemma {:induction false} LaterLayerLaterPosition(plan: Layers, o: nat, r: nat, i: nat, j: nat)
    requires o < r < |plan| && i < |Flatten(plan)| && j < |Flatten(plan)|
    requires NoDup(Flatten(plan)) && Flatten(plan)[i] in plan[o] && Flatten(plan)[j] in plan[r]
    ensures i < j
  {
    var rest := Flatten(plan[1..]);
    assert Flatten(plan) == plan[0] + rest;
    FlattenHas(plan[1..], r - 1, Flatten(plan)[j]);
    var y :| 0 <= y < |rest| && rest[y] == Flatten(plan)[j];
    assert Flatten(plan)[|plan[0]| + y] == Flatten(plan)[j];
    assert j == |plan[0]| + y;
    if o == 0 {
      var x :| 0 <= x < |plan[0]| && plan[0][x] == Flatten(plan)[i];
      assert Flatten(plan)[x] == Flatten(plan)[i];
      assert i == x;
    } else {
      FlattenHas(plan[1..], o - 1, Flatten(plan)[i]);
      var z :| 0 <= z < |rest| && rest[z] == Flatten(plan)[i];
      assert Flatten(plan)[|plan[0]| + z] == Flatten(plan)[i];
      assert i == |plan[0]| + z;
      assert NoDup(rest) by {
        forall a, b | 0 <= a < b < |rest| ensures rest[a] != rest[b] {
          assert rest[a] == Flatten(plan)[|plan[0]| + a] && rest[b] == Flatten(plan)[|plan[0]| + b];
        }
      }
      LaterLayerLaterPosition(plan[1..], o - 1, r - 1, z, y);
    }
  }

  /** The promise behind stored templates: on a fresh ticket the executor skips nothing of such a plan as long as
      its calls are usable, and every planned tool ends up usable. */
  lemma OrderedPlanSkipsNothing(env: Env, iteration: nat, plan: Layers, context: Dict)
    requires NoDup(Flatten(plan)) && Closed(Elements(Flatten(plan))) && DependencyOrdered(plan)
    requires forall c :: c in ExecTools(env, iteration, Flatten(plan), Trace(context, [])).calls ==> env.usable(c)
    ensures var t' := ExecTools(env, iteration, Flatten(plan), Trace(context, []));
            && |t'.calls| == |Flatten(plan)|
            && (forall i :: 0 <= i < |t'.calls| ==> t'.calls[i].tool == Flatten(plan)[i])
            && UsableTools(env, t'.calls) == Elements(Flatten(plan))
  {
    OrderedPlanIsGated(plan);
    var t := Trace(context, []);
    var t' := ExecTools(env, iteration, Flatten(plan), t);
    assert UsableTools(env, []) == {};
    assert Fresh(t, t') == t'.calls;
    NothingSkipped(env, iteration, Flatten(plan), t);
    AllUsable(env, iteration, Flatten(plan), t);
  }
}
