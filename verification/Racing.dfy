/** On which plans production, which marks success inside a layer, and the research loop, which marks it after the
    layer, make the same calls: exactly those without a racing layer. */
module Racing {
  import opened Values
  import opened Records
  import opened Ordering
  import opened Dag
  import opened Executor
  import opened Critic
  import opened Pipeline
  import opened Safety
  import opened Provenance
  import opened Resolution
  import opened Worlds
  import opened Simulation
  import Research

  /** The two executors do the same on a fresh ticket, whatever the tools answer. */
  ghost predicate AgreeEverywhere(layers: Layers) {
    forall env: Env, iteration, context :: IsProduction(env) ==>
      Research.RunLayers(env, iteration, layers, Trace(context, [])) ==
      ExecTools(env, iteration, Flatten(layers), Trace(context, []))
  }

  /** The world in which the first `n` order lookups fail and every other call is answered. */
  function LookupsFrom(n: nat): Failing {
    (log: seq<Record>, tool: string) => tool == "order_lookup" && CallsTo(log, "order_lookup") < n
  }

  function Late(n: nat): Env {
    World(false, LookupsFrom(n), NO_NUMERAL)
  }

  /** A log of that world, with `k` lookups so far. */
  predicate LateLog(n: nat, t: Trace, k: nat) {
    AsTold(Late(n), LookupsFrom(n), t.calls) && Identified(t.context) && CallsTo(t.calls, "order_lookup") == k
  }

  lemma LateLookups(n: nat, t: Trace, k: nat)
    requires LateLog(n, t, k)
    ensures "order_lookup" in UsableTools(Late(n), t.calls) <==> k > n
  {
    hide UsableTools;
    assert FailsFirst(Late(n), t.calls, "order_lookup", n);
    UsableAfterFailures(Late(n), t.calls, "order_lookup", n);
  }

  function CountOf(tools: seq<string>, tool: string): nat {
    if tools == [] then 0 else (if tools[0] == tool then 1 else 0) + CountOf(tools[1..], tool)
  }

  lemma {:induction false} CountAtMost(tools: seq<string>, tool: string)
    ensures CountOf(tools, tool) <= |tools| && (tool in tools <==> CountOf(tools, tool) > 0)
  {
    if tools != [] { CountAtMost(tools[1..], tool); }
  }

  /** One more call in that world. */
  lemma LateCall(n: nat, iteration: nat, tool: string, t: Trace, k: nat)
    requires LateLog(n, t, k)
    ensures LateLog(n, Append(Late(n), t, Dispatch(Late(n), iteration, tool, t)), k + if tool == "order_lookup" then 1 else 0)
  {
    hide AsTold, Identified, Dispatch, UpdateContext, Late, CallsTo, LookupsFrom;
    var env, r := Late(n), Dispatch(Late(n), iteration, tool, t);
    LateDispatch(n, iteration, tool, t);
    AppendAsTold(env, LookupsFrom(n), t.calls, r);
    UpdateIdentifies(env.parseFloat, t.context, r);
    CallsToAppend(t.calls, r, "order_lookup");
  }

  lemma LateDispatch(n: nat, iteration: nat, tool: string, t: Trace)
    requires Identified(t.context)
    ensures var r := Dispatch(Late(n), iteration, tool, t);
            r.tool == tool && (Late(n).usable(r) <==> !LookupsFrom(n)(t.calls, tool))
  {
    hide World, Dispatch, LookupsFrom;
    DispatchAsTold(false, LookupsFrom(n), NO_NUMERAL, iteration, tool, t);
  }

  // ---- production ----

  lemma NeedsLookup(tool: string)
    ensures DependenciesOf(tool) == if tool == "refund" then {"order_lookup"} else {}
  {
  }

  /** Production calls every entry except refunds that come before any usable lookup; a racing list has a refund after
      the lookup that succeeds. */
  lemma {:induction false} ProductionCalls(n: nat, iteration: nat, tools: seq<string>, t: Trace, k: nat)
    requires LateLog(n, t, k)
    ensures var t' := ExecTools(Late(n), iteration, tools, t);
            && LateLog(n, t', k + CountOf(tools, "order_lookup"))
            && |t.calls| + |tools| - CountOf(tools, "refund") <= |t'.calls|
            && (k > n ==> |t'.calls| == |t.calls| + |tools|)
            && (k >= n && !NoRace(tools) ==> |t'.calls| > |t.calls| + |tools| - CountOf(tools, "refund"))
  {
    hide LateLog, Late, UsableTools, Dispatch, NoRace;
    if tools != [] {
      var head, rest := tools[0], tools[1..];
      var t1 := ExecTool(Late(n), iteration, head, t);
      LateLookups(n, t, k);
      LateCall(n, iteration, head, t, k);
      NeedsLookup(head);
      var k1 := k + if head == "order_lookup" then 1 else 0;
      ProductionCalls(n, iteration, rest, t1, k1);
      if !NoRace(tools) { RaceInTail(tools); }
      CountAtMost(rest, "refund");
    } else {
      NothingRaces();
    }
  }

  lemma NothingRaces()
    ensures NoRace([])
  {
  }

  /** A race at the head is a lookup with a refund behind it; any other is in the tail. */
  lemma RaceInTail(tools: seq<string>)
    requires tools != [] && !NoRace(tools)
    ensures !NoRace(tools[1..]) || (tools[0] == "order_lookup" && "refund" in tools[1..])
  {
    var i, j :| 0 <= i < j < |tools| && tools[i] in DependenciesOf(tools[j]);
    NeedsLookup(tools[j]);
    if i == 0 {
      assert tools[1..][j - 1] == "refund";
    } else {
      assert tools[1..][i - 1] in DependenciesOf(tools[1..][j - 1]);
    }
  }

  // ---- research ----

  /** The research loop leaves out the refunds of a layer before which no lookup was usable, and only those. */
  lemma {:induction false} LayerCalls(n: nat, iteration: nat, committed: seq<Record>, tools: seq<string>, t: Trace, k: nat)
    requires LateLog(n, t, k)
    ensures var t' := Research.RunLayerTools(Late(n), iteration, committed, tools, t);
            && LateLog(n, t', k + CountOf(tools, "order_lookup"))
            && |t'.calls| == |t.calls| + |tools| -
                 if "order_lookup" in UsableTools(Late(n), committed) then 0 else CountOf(tools, "refund")
    decreases |tools|
  {
    hide LateLog, Late, UsableTools, Dispatch;
    if tools != [] {
      var head, rest := tools[0], tools[1..];
      NeedsLookup(head);
      LateCall(n, iteration, head, t, k);
      var runs := DependenciesOf(head) <= UsableTools(Late(n), committed);
      var t1 := if runs then Append(Late(n), t, Dispatch(Late(n), iteration, head, t)) else t;
      var k1 := k + if head == "order_lookup" then 1 else 0;
      LayerCalls(n, iteration, committed, rest, t1, k1);
    }
  }

  lemma {:induction false} LaterLayersCall(n: nat, iteration: nat, layers: Layers, t: Trace, k: nat)
    requires LateLog(n, t, k) && k > n
    ensures |Research.RunLayers(Late(n), iteration, layers, t).calls| == |t.calls| + |Flatten(layers)|
    decreases |layers|
  {
    hide LateLog, Late, UsableTools;
    if layers != [] {
      LateLookups(n, t, k);
      LayerCalls(n, iteration, t.calls, layers[0], t, k);
      var t1 := Research.RunLayerTools(Late(n), iteration, t.calls, layers[0], t);
      LaterLayersCall(n, iteration, layers[1..], t1, k + CountOf(layers[0], "order_lookup"));
    }
  }

  lemma {:induction false} LayersSplit(env: Env, iteration: nat, before: Layers, rest: Layers, t: Trace)
    ensures Research.RunLayers(env, iteration, before + rest, t) ==
            Research.RunLayers(env, iteration, rest, Research.RunLayers(env, iteration, before, t))
    decreases |before|
  {
    hide Research.RunLayerTools;
    if before == [] {
      assert before + rest == rest;
    } else {
      assert (before + rest)[1..] == before[1..] + rest;
      LayersSplit(env, iteration, before[1..], rest, Research.RunLayerTools(env, iteration, t.calls, before[0], t));
    }
  }

  // ---- both ----

  /** From a log whose next lookup is the first usable one, a racing layer makes production call more. */
  lemma RaceTells(n: nat, iteration: nat, layer: seq<string>, rest: Layers, t: Trace)
    requires LateLog(n, t, n) && !NoRace(layer)
    ensures |Research.RunLayers(Late(n), iteration, [layer] + rest, t).calls| <
            |ExecTools(Late(n), iteration, layer + Flatten(rest), t).calls|
  {
    hide LateLog, Late, UsableTools, NoRace, ExecTools, Research.RunLayerTools, CountOf;
    var env := Late(n);
    var k := n + CountOf(layer, "order_lookup");
    LateLookups(n, t, n);
    RaceHasLookup(layer);
    CountAtMost(layer, "order_lookup");
    ProductionCalls(n, iteration, layer, t, n);
    var p := ExecTools(env, iteration, layer, t);
    ProductionCalls(n, iteration, Flatten(rest), p, k);
    ExecToolsAppend(env, iteration, layer, Flatten(rest), t);
    LayerCalls(n, iteration, t.calls, layer, t, n);
    var r := Research.RunLayerTools(env, iteration, t.calls, layer, t);
    LaterLayersCall(n, iteration, rest, r, k);
    assert ([layer] + rest)[1..] == rest;
  }

  lemma RaceHasLookup(layer: seq<string>)
    requires !NoRace(layer)
    ensures "order_lookup" in layer
  {
    var i, j :| 0 <= i < j < |layer| && layer[i] in DependenciesOf(layer[j]);
    NeedsLookup(layer[j]);
  }

  lemma {:induction false} FirstRace(layers: Layers) returns (k: nat)
    requires exists i :: 0 <= i < |layers| && !NoRace(layers[i])
    ensures k < |layers| && !NoRace(layers[k]) && forall i :: 0 <= i < k ==> NoRace(layers[i])
  {
    hide NoRace;
    if !NoRace(layers[0]) {
      k := 0;
    } else {
      k := FirstRace(layers[1..]);
      k := k + 1;
      forall i | 0 <= i < k ensures NoRace(layers[i]) { if i > 0 { assert layers[i] == layers[1..][i - 1]; } }
    }
  }

  /** The world of a racing plan: the lookups of the layers before the first race fail. */
  lemma RacingPlanDiverges(layers: Layers, k: nat)
    requires k < |layers| && !NoRace(layers[k]) && forall i :: 0 <= i < k ==> NoRace(layers[i])
    ensures var n := CountOf(Flatten(layers[..k]), "order_lookup");
            |Research.RunLayers(Late(n), 1, layers, Trace(map[], [])).calls| <
            |ExecTools(Late(n), 1, Flatten(layers), Trace(map[], [])).calls|
  {
    hide LateLog, Late, UsableTools, NoRace, ExecTools, CountOf, Research.RunLayerTools, Research.RunLayers;
    var before, rest := layers[..k], layers[k + 1..];
    var n := CountOf(Flatten(before), "order_lookup");
    var t := Trace(map[], []);
    LateFromNothing(n);
    PlanAgrees(Late(n), 1, before, t);
    var t1 := ExecTools(Late(n), 1, Flatten(before), t);
    ProductionCalls(n, 1, Flatten(before), t, 0);
    RaceTells(n, 1, layers[k], rest, t1);
    assert layers == before + ([layers[k]] + rest);
    LayersSplit(Late(n), 1, before, [layers[k]] + rest, t);
    FlattenAppend(before, [layers[k]] + rest);
    assert ([layers[k]] + rest)[1..] == rest;
    ExecToolsAppend(Late(n), 1, Flatten(before), layers[k] + Flatten(rest), t);
  }

  lemma LateFromNothing(n: nat)
    ensures LateLog(n, Trace(map[], []), 0)
  {
  }

  lemma LateIsProduction(n: nat)
    ensures IsProduction(Late(n))
  {
    ProductionIsProduction(false, ToolsOf(LookupsFrom(n)), NO_NUMERAL);
  }

  /** On a fresh ticket the two executors agree in every production world exactly on plans without a racing layer. */
  lemma AgreeIffNoRace(layers: Layers)
    ensures AgreeEverywhere(layers) <==> forall k :: 0 <= k < |layers| ==> NoRace(layers[k])
  {
    hide NoRace, ExecTools, Research.RunLayers, IsProduction, Late;
    if forall k :: 0 <= k < |layers| ==> NoRace(layers[k]) {
      forall env: Env, iteration, context | IsProduction(env)
        ensures Research.RunLayers(env, iteration, layers, Trace(context, [])) ==
                ExecTools(env, iteration, Flatten(layers), Trace(context, []))
      {
        PlanAgrees(env, iteration, layers, Trace(context, []));
      }
    } else {
      var k := FirstRace(layers);
      RacingPlanDiverges(layers, k);
      LateIsProduction(CountOf(Flatten(layers[..k]), "order_lookup"));
    }
  }

  // ---- later iterations ----

  lemma {:induction false} OpenLayerAgrees(env: Env, iteration: nat, committed: seq<Record>, tools: seq<string>, t: Trace)
    requires "order_lookup" in UsableTools(env, committed) && "order_lookup" in UsableTools(env, t.calls)
    ensures Research.RunLayerTools(env, iteration, committed, tools, t) == ExecTools(env, iteration, tools, t)
    ensures "order_lookup" in UsableTools(env, ExecTools(env, iteration, tools, t).calls)
    decreases |tools|
  {
    hide UsableTools, Dispatch;
    if tools != [] {
      NeedsLookup(tools[0]);
      UsableToolsAppend(env, t.calls, Dispatch(env, iteration, tools[0], t));
      OpenLayerAgrees(env, iteration, committed, tools[1..], ExecTool(env, iteration, tools[0], t));
    }
  }

  /** Once a lookup is usable the two executors agree on every plan, racing or not. */
  lemma {:induction false} UsableLookupAgrees(env: Env, iteration: nat, layers: Layers, t: Trace)
    requires "order_lookup" in UsableTools(env, t.calls)
    ensures Research.RunLayers(env, iteration, layers, t) == ExecTools(env, iteration, Flatten(layers), t)
    decreases |layers|
  {
    hide UsableTools, ExecTools, Research.RunLayerTools;
    if layers == [] {
      assert ExecTools(env, iteration, [], t) == t by { NothingToDo(env, iteration, t); }
    } else {
      OpenLayerAgrees(env, iteration, t.calls, layers[0], t);
      UsableLookupAgrees(env, iteration, layers[1..], ExecTools(env, iteration, layers[0], t));
      ExecToolsAppend(env, iteration, layers[0], Flatten(layers[1..]), t);
    }
  }

  lemma NothingToDo(env: Env, iteration: nat, t: Trace)
    ensures ExecTools(env, iteration, [], t) == t
  {
  }
}
