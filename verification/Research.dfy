/** The research loop production ports (experiments/baselines/memoryless.py, with the replan counter of
    experiments/memory_augmented_v2.py), with the LLM off. A tool's success counts only after its layer. */
module Research {
  import opened Values
  import opened Records
  import opened Ordering
  import opened Dag
  import opened Executor
  import opened Critic

  const MAX_ROUNDS: nat := 3

  /** One layer, gated by the calls committed before it. */
  function RunLayerTools(env: Env, iteration: nat, committed: seq<Record>, tools: seq<string>, t: Trace): (r: Trace)
    ensures |t.calls| <= |r.calls| && t.calls == r.calls[..|t.calls|]
    decreases |tools|
  {
    if tools == [] then t
    else
      var t1 := if DependenciesOf(tools[0]) <= UsableTools(env, committed)
                then Append(env, t, Dispatch(env, iteration, tools[0], t)) else t;
      assert t1.calls[..|t.calls|] == t.calls;
      RunLayerTools(env, iteration, committed, tools[1..], t1)
  }

  function RunLayers(env: Env, iteration: nat, layers: Layers, t: Trace): (r: Trace)
    ensures |t.calls| <= |r.calls| && t.calls == r.calls[..|t.calls|]
    decreases |layers|
  {
    if layers == [] then t
    else RunLayers(env, iteration, layers[1..], RunLayerTools(env, iteration, t.calls, layers[0], t))
  }

  function Succeeded(results: seq<Record>): set<string> {
    set c | c in results && c.success :: c.tool
  }

  datatype Progress = Progress(pending: set<string>, trace: Trace, replans: nat)

  /** The pending set after the deterministic critic. */
  function Update(env: Env, pending: set<string>, results: seq<Record>): set<string> {
    var failed := FailedIn(env, results);
    if failed == {} then pending - Succeeded(results) else failed + (pending - Succeeded(results))
  }

  function Round(env: Env, iteration: nat, p: Progress): Progress {
    var t := RunLayers(env, iteration, FromPendingTools(p.pending), p.trace);
    var results := Fresh(p.trace, t);
    Progress(Update(env, p.pending, results), t, p.replans + if FailedIn(env, results) == {} then 0 else 1)
  }

  datatype Outcome = Outcome(progress: Progress, steps: nat, resolved: bool)

  predicate AllUsable(env: Env, expected: set<string>, calls: seq<Record>) {
    expected <= UsableTools(env, calls)
  }

  function Rounds(env: Env, expected: set<string>, iteration: nat, p: Progress): Outcome
    requires iteration <= MAX_ROUNDS
    decreases MAX_ROUNDS - iteration
  {
    var p' := Round(env, iteration, p);
    if p'.pending == {} || iteration == MAX_ROUNDS then Outcome(p', iteration, AllUsable(env, expected, p'.trace.calls))
    else Rounds(env, expected, iteration + 1, p')
  }

  // ---- the imperative loop ----

  /** The loop over a tool's dependencies: each needs a good call among the committed ones. */
  method DependenciesMet(env: Env, deps: set<string>, calls: seq<Record>) returns (met: bool)
    ensures met <==> deps <= UsableTools(env, calls)
  {
    var rest := deps;
    while rest != {}
      invariant rest <= deps && deps - rest <= UsableTools(env, calls)
      decreases rest
    {
      var dep :| dep in rest;
      if !(exists e :: e in calls && e.tool == dep && env.usable(e)) { return false; }
      rest := rest - {dep};
    }
    return true;
  }

  lemma LayerStep(env: Env, iteration: nat, committed: seq<Record>, tools: seq<string>, k: nat, t: Trace)
    requires k < |tools|
    ensures RunLayerTools(env, iteration, committed, tools[k..], t) ==
            RunLayerTools(env, iteration, committed, tools[k + 1..],
              if DependenciesOf(tools[k]) <= UsableTools(env, committed)
              then Append(env, t, Dispatch(env, iteration, tools[k], t)) else t)
  {
    assert tools[k..][1..] == tools[k + 1..];
  }

  method ExecuteLayer(env: Env, iteration: nat, layer: seq<string>, calls: seq<Record>, context: Dict)
    returns (results: seq<Record>, context': Dict)
    ensures Trace(context', calls + results) == RunLayerTools(env, iteration, calls, layer, Trace(context, calls))
  {
    results, context' := [], context;
    assert layer[0..] == layer && calls + results == calls;
    for k := 0 to |layer|
      invariant RunLayerTools(env, iteration, calls, layer, Trace(context, calls)) ==
                RunLayerTools(env, iteration, calls, layer[k..], Trace(context', calls + results))
    {
      LayerStep(env, iteration, calls, layer, k, Trace(context', calls + results));
      var met := DependenciesMet(env, DependenciesOf(layer[k]), calls);
      if met {
        var params := env.prepare(layer[k], context');
        var result := env.tools(calls + results, layer[k], params);
        var entry := Record(layer[k], params, result.success, result.error, result.data, iteration);
        assert calls + (results + [entry]) == (calls + results) + [entry];
        results := results + [entry];
        context' := context' + UpdateContext(env.parseFloat, entry);
      }
    }
  }

  lemma LayersStep(env: Env, iteration: nat, layers: Layers, k: nat, t: Trace)
    requires k < |layers|
    ensures RunLayers(env, iteration, layers[k..], t) ==
            RunLayers(env, iteration, layers[k + 1..], RunLayerTools(env, iteration, t.calls, layers[k], t))
  {
    assert layers[k..][1..] == layers[k + 1..];
  }

  method ExecutePlan(env: Env, iteration: nat, plan: Layers, calls: seq<Record>, context: Dict)
    returns (results: seq<Record>, context': Dict)
    ensures Trace(context', calls + results) == RunLayers(env, iteration, plan, Trace(context, calls))
  {
    results, context' := [], context;
    assert plan[0..] == plan && calls + results == calls;
    for k := 0 to |plan|
      invariant RunLayers(env, iteration, plan, Trace(context, calls)) ==
                RunLayers(env, iteration, plan[k..], Trace(context', calls + results))
    {
      LayersStep(env, iteration, plan, k, Trace(context', calls + results));
      var layerResults, next := ExecuteLayer(env, iteration, plan[k], calls + results, context');
      ConcatAssociates(calls, results, layerResults);
      results, context' := results + layerResults, next;
    }
  }

  /** The body of the iteration loop: plan, execute, judge, update the pending set. */
  method Iterate(env: Env, iteration: nat, pending: set<string>, calls: seq<Record>, context: Dict, replans: nat)
    returns (pending': set<string>, calls': seq<Record>, context': Dict, replans': nat)
    ensures Progress(pending', Trace(context', calls'), replans') ==
            Round(env, iteration, Progress(pending, Trace(context, calls), replans))
  {
    var plan := PlanPendingTools(pending);
    var results;
    results, context' := ExecutePlan(env, iteration, plan, calls, context);
    calls' := calls + results;
    assert Fresh(Trace(context, calls), Trace(context', calls')) == results;
    var failed := FailedIn(env, results);
    if failed != {} {
      replans' := replans + 1;
      pending' := failed + (pending - Succeeded(results));
    } else {
      replans' := replans;
      pending' := pending - Succeeded(results);
    }
  }

  /** `run`. */
  method Run(env: Env, expected: set<string>, startContext: Dict) returns (outcome: Outcome)
    ensures outcome == Rounds(env, expected, 1, Progress(expected, Trace(startContext, []), 0))
  {
    hide Round;
    var pending, calls, context, replans := expected, [], startContext, 0;
    var iteration := 1;
    while true
      invariant 1 <= iteration <= MAX_ROUNDS
      invariant Rounds(env, expected, 1, Progress(expected, Trace(startContext, []), 0)) ==
                Rounds(env, expected, iteration, Progress(pending, Trace(context, calls), replans))
      decreases MAX_ROUNDS - iteration
    {
      pending, calls, context, replans := Iterate(env, iteration, pending, calls, context, replans);
      if pending == {} || iteration == MAX_ROUNDS {
        return Outcome(Progress(pending, Trace(context, calls), replans), iteration, AllUsable(env, expected, calls));
      }
      iteration := iteration + 1;
    }
  }
}
