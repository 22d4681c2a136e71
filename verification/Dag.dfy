/** The planner-to-executor contract (src/core/dag.py). */
module Dag {
  import opened Ordering

  type Layers = seq<seq<string>>

  function ToolLayer(tool: string): nat {
    if tool == "crm" then 0
    else if tool == "order_lookup" || tool == "kb_search" then 1
    else if tool == "refund" then 2
    else 99
  }

  lemma KnownLayers()
    ensures ToolLayer("order_lookup") == 1 && ToolLayer("refund") == 2
  {
  }

  function DependenciesOf(tool: string): set<string> {
    if tool == "refund" then {"order_lookup"} else {}
  }

  /** The tools that depend on others. */
  const DEPENDENT_TOOLS: set<string> := {"refund"}

  function Flatten(layers: Layers): seq<string> {
    if layers == [] then [] else layers[0] + Flatten(layers[1..])
  }

  lemma {:induction false} FlattenAppend(a: Layers, b: Layers)
    ensures Flatten(a + b) == Flatten(a) + Flatten(b)
  {
    if a == [] {
      assert a + b == b;
    } else {
      FlattenAppend(a[1..], b);
      assert (a + b)[0] == a[0] && (a + b)[1..] == a[1..] + b;
      ConcatAssociates(a[0], Flatten(a[1..]), Flatten(b));
      assert Flatten(a + b) == a[0] + Flatten(a[1..] + b);
    }
  }

  /** The dispatch order of a plan keeps each tool at a position after all tools of earlier layers. */
  lemma {:induction false} FlattenHas(layers: Layers, k: nat, tool: string)
    requires k < |layers| && tool in layers[k]
    ensures tool in Flatten(layers)
  {
    if k > 0 { FlattenHas(layers[1..], k - 1, tool); }
  }

  lemma {:induction false} FlattenFrom(layers: Layers, tool: string) returns (k: nat)
    requires tool in Flatten(layers)
    ensures k < |layers| && tool in layers[k]
  {
    if tool in layers[0] {
      k := 0;
    } else {
      k := FlattenFrom(layers[1..], tool);
      k := k + 1;
    }
  }

  // ---- the deterministic plan ----

  function LayerAt(pending: set<string>, index: nat): (r: seq<string>)
    ensures forall t :: t in r <==> t in pending && ToolLayer(t) == index
  {
    Sorted(set t | t in pending && ToolLayer(t) == index)
  }

  lemma LayerAscends(pending: set<string>, index: nat)
    ensures Ascending(LayerAt(pending, index)) && NoDup(LayerAt(pending, index))
  {
    SortedAscends(set t | t in pending && ToolLayer(t) == index);
  }

  /** The layers of the given indices, empty ones dropped. */
  function PlanFrom(pending: set<string>, indices: seq<nat>): Layers {
    if indices == [] then [] else
      var layer := LayerAt(pending, indices[0]);
      (if layer == [] then [] else [layer]) + PlanFrom(pending, indices[1..])
  }

  const LAYER_INDICES: seq<nat> := [0, 1, 2, 99]

  function FromPendingTools(pending: set<string>): Layers {
    PlanFrom(pending, LAYER_INDICES)
  }

  lemma LayerIndices(tool: string)
    ensures ToolLayer(tool) in LAYER_INDICES
  {
    assert LAYER_INDICES[0] == 0 && LAYER_INDICES[1] == 1 && LAYER_INDICES[2] == 2 && LAYER_INDICES[3] == 99;
  }

  predicate Increasing(s: seq<nat>) {
    forall i, j :: 0 <= i < j < |s| ==> s[i] < s[j]
  }

  lemma PlanFromFlattens(pending: set<string>, indices: seq<nat>)
    requires indices != []
    ensures Flatten(PlanFrom(pending, indices)) ==
            LayerAt(pending, indices[0]) + Flatten(PlanFrom(pending, indices[1..]))
  {
    var layer := LayerAt(pending, indices[0]);
    if layer != [] {
      assert PlanFrom(pending, indices)[1..] == PlanFrom(pending, indices[1..]);
    } else {
      assert PlanFrom(pending, indices) == PlanFrom(pending, indices[1..]);
    }
  }

  lemma {:induction false} PlanFromHas(pending: set<string>, indices: seq<nat>, t: string)
    ensures t in Flatten(PlanFrom(pending, indices)) <==> t in pending && ToolLayer(t) in indices
  {
    if indices != [] {
      PlanFromFlattens(pending, indices);
      PlanFromHas(pending, indices[1..], t);
      assert ToolLayer(t) in indices <==> ToolLayer(t) == indices[0] || ToolLayer(t) in indices[1..];
    }
  }

  /** `order` dispatches tools in non-decreasing layer index, none twice. */
  predicate InLayerOrder(order: seq<string>) {
    forall i, j :: 0 <= i < j < |order| ==> order[i] != order[j] && ToolLayer(order[i]) <= ToolLayer(order[j])
  }

  lemma {:induction false} PlanFromInOrder(pending: set<string>, indices: seq<nat>)
    requires Increasing(indices)
    ensures InLayerOrder(Flatten(PlanFrom(pending, indices)))
  {
    if indices != [] {
      PlanFromFlattens(pending, indices);
      PlanFromInOrder(pending, indices[1..]);
      LayerAscends(pending, indices[0]);
      var head, tail := LayerAt(pending, indices[0]), Flatten(PlanFrom(pending, indices[1..]));
      forall j | 0 <= j < |tail| ensures indices[0] < ToolLayer(tail[j]) {
        PlanFromHas(pending, indices[1..], tail[j]);
      }
      forall i | 0 <= i < |head| ensures ToolLayer(head[i]) == indices[0] { assert head[i] in head; }
    }
  }

  /** Every pending tool is planned exactly once, nothing else is, and lower layers go first. */
  lemma FallbackCoversOnce(pending: set<string>)
    ensures var order := Flatten(FromPendingTools(pending));
            Elements(order) == pending && |order| == |pending| && NoDup(order) && InLayerOrder(order)
  {
    var order := Flatten(FromPendingTools(pending));
    forall t ensures t in order <==> t in pending {
      LayerIndices(t);
      PlanFromHas(pending, LAYER_INDICES, t);
    }
    PlanFromInOrder(pending, LAYER_INDICES);
    NoDupCounts(order);
    assert Elements(order) == pending;
  }

  lemma {:induction false} NoDupCounts<T>(s: seq<T>)
    requires NoDup(s)
    ensures |Elements(s)| == |s|
  {
    if s != [] {
      NoDupCounts(s[1..]);
      assert Elements(s) == {s[0]} + Elements(s[1..]);
    }
  }

  /** The layer index shared by the tools of a non-empty layer. */
  function IndexOf(layer: seq<string>): nat
    requires layer != []
  {
    ToolLayer(layer[0])
  }

  /** The layers a deterministic plan may have, starting above index `floor`: ascending listings of exactly the
      pending tools of one index each, the indices growing. */
  ghost predicate IsPlanAbove(plan: Layers, pending: set<string>, floor: int)
    decreases |plan|
  {
    if plan == [] then forall t :: t in pending ==> ToolLayer(t) <= floor
    else
      && plan[0] != []
      && Ascending(plan[0])
      && floor < IndexOf(plan[0])
      && (forall t :: t in plan[0] <==> t in pending && ToolLayer(t) == IndexOf(plan[0]))
      && (forall t :: t in pending && floor < ToolLayer(t) ==> IndexOf(plan[0]) <= ToolLayer(t))
      && IsPlanAbove(plan[1..], pending, IndexOf(plan[0]))
  }

  ghost predicate IsFallbackPlan(plan: Layers, pending: set<string>) {
    IsPlanAbove(plan, pending, -1)
  }

  lemma {:induction false} PlanFromIsPlan(pending: set<string>, indices: seq<nat>, floor: int)
    requires Increasing(indices) && (indices != [] ==> floor < indices[0])
    requires forall t :: t in pending && floor < ToolLayer(t) ==> ToolLayer(t) in indices
    ensures IsPlanAbove(PlanFrom(pending, indices), pending, floor)
  {
    if indices != [] {
      var layer, rest := LayerAt(pending, indices[0]), indices[1..];
      if layer == [] {
        forall t | t in pending && floor < ToolLayer(t) ensures ToolLayer(t) in rest {
          assert t !in layer;
        }
        PlanFromIsPlan(pending, rest, floor);
        assert PlanFrom(pending, indices) == PlanFrom(pending, rest);
      } else {
        assert layer[0] in layer;
        LayerAscends(pending, indices[0]);
        forall t | t in pending && floor < ToolLayer(t) ensures indices[0] <= ToolLayer(t) {
          var k :| 0 <= k < |indices| && indices[k] == ToolLayer(t);
        }
        forall t | t in pending && indices[0] < ToolLayer(t) ensures ToolLayer(t) in rest { }
        PlanFromIsPlan(pending, rest, indices[0]);
        assert PlanFrom(pending, indices)[1..] == PlanFrom(pending, rest);
      }
    }
  }

  lemma FallbackIsPlan(pending: set<string>)
    ensures IsFallbackPlan(FromPendingTools(pending), pending)
  {
    forall t | t in pending ensures ToolLayer(t) in LAYER_INDICES { LayerIndices(t); }
    PlanFromIsPlan(pending, LAYER_INDICES, -1);
  }

  /** The requirements determine the plan: `FromPendingTools` is the only plan meeting them. */
  lemma {:induction false} FallbackIsUnique(p: Layers, q: Layers, pending: set<string>, floor: int)
    requires IsPlanAbove(p, pending, floor) && IsPlanAbove(q, pending, floor)
    ensures p == q
    decreases |p|
  {
    if p != [] { assert p[0][0] in p[0]; }
    if q != [] { assert q[0][0] in q[0]; }
    if p != [] && q != [] {
      assert Elements(p[0]) == Elements(q[0]);
      AscendingIsUnique(p[0], q[0]);
      FallbackIsUnique(p[1..], q[1..], pending, IndexOf(p[0]));
      assert p == [p[0]] + p[1..] && q == [q[0]] + q[1..];
    }
  }

  /** The pending ones among some tools, as a layer if there are any. */
  function Among(pending: set<string>, tools: set<string>): Layers {
    if pending * tools == {} then [] else [Sorted(pending * tools)]
  }

  const KNOWN_TOOLS := {"crm", "kb_search", "order_lookup", "refund"}

  lemma LayerIsAmong(pending: set<string>, index: nat, tools: set<string>)
    requires forall t :: t in pending ==> (t in tools <==> ToolLayer(t) == index)
    ensures LayerAt(pending, index) == Sorted(pending * tools)
    ensures Dropped(LayerAt(pending, index)) == Among(pending, tools)
  {
    assert (set t | t in pending && ToolLayer(t) == index) == pending * tools;
    SortedIsEmpty(pending * tools);
  }

  lemma SortedIsEmpty(s: set<string>)
    ensures Sorted(s) == [] <==> s == {}
  {
    if s != {} {
      var x :| x in s;
      assert x in Sorted(s);
    }
  }

  lemma PlanOfFour(pending: set<string>, i: nat, j: nat, k: nat, l: nat)
    ensures PlanFrom(pending, [i, j, k, l]) ==
            Dropped(LayerAt(pending, i)) + (Dropped(LayerAt(pending, j))
            + (Dropped(LayerAt(pending, k)) + Dropped(LayerAt(pending, l))))
  {
    hide LayerAt;
    assert [i, j, k, l][1..] == [j, k, l] && [j, k, l][1..] == [k, l] && [k, l][1..] == [l] && [l][1..] == [];
    assert PlanFrom(pending, [l]) == Dropped(LayerAt(pending, l)) + PlanFrom(pending, []);
    assert PlanFrom(pending, [k, l]) == Dropped(LayerAt(pending, k)) + PlanFrom(pending, [l]);
    assert PlanFrom(pending, [j, k, l]) == Dropped(LayerAt(pending, j)) + PlanFrom(pending, [k, l]);
  }

  function Dropped(layer: seq<string>): Layers {
    if layer == [] then [] else [layer]
  }

  lemma LayerOf(t: string)
    ensures ToolLayer(t) == if t == "crm" then 0 else if t in {"kb_search", "order_lookup"} then 1
                            else if t in {"refund"} then 2 else 99
  {
  }

  lemma KnownDiffer()
    ensures "crm" != "kb_search" && "crm" != "order_lookup" && "crm" != "refund"
    ensures "kb_search" != "order_lookup" && "kb_search" != "refund" && "order_lookup" != "refund"
  {
    assert |"crm"| == 3 && |"kb_search"| == 9 && |"order_lookup"| == 12 && |"refund"| == 6;
  }

  /** The deterministic plan stage by stage: the customer first, then knowledge base and order lookup, then the refund, and
      tools it does not know at the end. */
  lemma FallbackStages(pending: set<string>)
    ensures FromPendingTools(pending) ==
            Among(pending, {"crm"}) + (Among(pending, {"kb_search", "order_lookup"})
            + (Among(pending, {"refund"}) + Among(pending, pending - KNOWN_TOOLS)))
  {
    hide LayerAt, Among, PlanFrom, Dropped, ToolLayer;
    forall t ensures ToolLayer(t) == (if t == "crm" then 0 else if t in {"kb_search", "order_lookup"} then 1
                                      else if t in {"refund"} then 2 else 99)
    {
      LayerOf(t);
    }
    KnownDiffer();
    LayerIsAmong(pending, 0, {"crm"});
    LayerIsAmong(pending, 1, {"kb_search", "order_lookup"});
    LayerIsAmong(pending, 2, {"refund"});
    LayerIsAmong(pending, 99, pending - KNOWN_TOOLS);
    PlanOfFour(pending, 0, 1, 2, 99);
  }

  lemma AmongAll(pending: set<string>, tools: set<string>)
    requires tools <= pending
    ensures Among(pending, tools) == if tools == {} then [] else [Sorted(tools)]
  {
    assert pending * tools == tools;
  }

  /** A ticket that needs all four tools. */
  lemma FullPlan()
    ensures FromPendingTools(KNOWN_TOOLS) == [["crm"], ["kb_search", "order_lookup"], ["refund"]]
  {
    hide FromPendingTools, Among;
    FallbackStages(KNOWN_TOOLS);
    AmongAll(KNOWN_TOOLS, {"crm"});
    AmongAll(KNOWN_TOOLS, {"kb_search", "order_lookup"});
    AmongAll(KNOWN_TOOLS, {"refund"});
    AmongAll(KNOWN_TOOLS, KNOWN_TOOLS - KNOWN_TOOLS);
    SortedOne("crm");
    SortedOne("refund");
    SortedTwo("kb_search", "order_lookup");
  }

  lemma SortedOne(a: string)
    ensures Sorted({a}) == [a]
  {
    SortedAscends({a});
    AscendingIsUnique(Sorted({a}), [a]);
  }

  lemma SortedTwo(a: string, b: string)
    requires Less(a, b)
    ensures Sorted({a, b}) == [a, b]
  {
    SortedAscends({a, b});
    LessIrreflexive(a);
    assert [a, b][0] == a && [a, b][1] == b;
    AscendingIsUnique(Sorted({a, b}), [a, b]);
  }

  lemma {:induction false} MinExists(s: set<nat>) returns (m: nat)
    requires s != {}
    ensures IsMin(m, s)
    decreases |s|
  {
    var x :| x in s;
    m := x;
    if s != {x} {
      var n := MinExists(s - {x});
      m := if x < n then x else n;
      assert forall y :: y in s ==> y == x || y in s - {x};
    }
  }

  predicate IsMin(m: nat, s: set<nat>) {
    m in s && forall x :: x in s ==> m <= x
  }

  function Min(s: set<nat>): (m: nat)
    requires s != {}
    ensures IsMin(m, s)
  {
    assert exists m :: IsMin(m, s) by { var m := MinExists(s); }
    var m :| m in s && IsMin(m, s);
    m
  }

  /** Python's `sorted` on a set of layer indices. */
  function SortedIndices(s: set<nat>): (r: seq<nat>)
    ensures Increasing(r)
    ensures forall i :: i in r <==> i in s
    decreases |s|
  {
    if s == {} then [] else
      var m := Min(s);
      var rest := SortedIndices(s - {m});
      assert forall i :: 0 <= i < |rest| ==> rest[i] in s - {m};
      [m] + rest
  }

  function PendingIndices(pending: set<string>): (r: seq<nat>)
    ensures Increasing(r)
    ensures forall t :: t in pending ==> ToolLayer(t) in r
  {
    SortedIndices(set t | t in pending :: ToolLayer(t))
  }

  lemma PlanFromStep(plan: Layers, pending: set<string>, indices: seq<nat>, k: nat)
    requires k < |indices|
    ensures var layer := LayerAt(pending, indices[k]);
            plan + PlanFrom(pending, indices[k..]) ==
            (if layer == [] then plan else plan + [layer]) + PlanFrom(pending, indices[k + 1..])
  {
    assert indices[k..][1..] == indices[k + 1..];
    var layer, rest := LayerAt(pending, indices[k]), PlanFrom(pending, indices[k + 1..]);
    if layer == [] {
      assert PlanFrom(pending, indices[k..]) == rest;
    } else {
      assert PlanFrom(pending, indices[k..]) == [layer] + rest;
      ConcatAssociates(plan, [layer], rest);
    }
  }

  lemma ConcatAssociates<T>(a: seq<T>, b: seq<T>, c: seq<T>)
    ensures (a + b) + c == a + (b + c)
  {
  }

  /** `from_pending_tools`, as the loop over the layer indices in increasing order. */
  method PlanPendingTools(pending: set<string>) returns (plan: Layers)
    ensures IsFallbackPlan(plan, pending)
    ensures plan == FromPendingTools(pending)
  {
    plan := [];
    var indices := PendingIndices(pending);
    for k := 0 to |indices|
      invariant PlanFrom(pending, indices) == plan + PlanFrom(pending, indices[k..])
    {
      PlanFromStep(plan, pending, indices, k);
      var layer := LayerAt(pending, indices[k]);
      if layer != [] {
        plan := plan + [layer];
      }
    }
    assert plan == PlanFrom(pending, indices);
    PlanFromIsPlan(pending, indices, -1);
    FallbackIsPlan(pending);
    FallbackIsUnique(plan, FromPendingTools(pending), pending, -1);
  }

  // ---- the dependency-order check ----

  /** The highest index of a layer holding `tool`, or -1. */
  function LastLayer(layers: Layers, tool: string): (r: int)
    ensures -1 <= r < |layers|
    ensures r >= 0 ==> tool in layers[r]
    ensures forall k :: r < k < |layers| ==> tool !in layers[k]
  {
    if layers == [] then -1
    else if tool in layers[|layers| - 1] then |layers| - 1
    else
      var r := LastLayer(layers[..|layers| - 1], tool);
      assert forall k :: r < k < |layers| - 1 ==> layers[k] == layers[..|layers| - 1][k];
      r
  }

  /** `tool`, if planned, comes in a later layer than each of its planned dependencies. */
  predicate AfterDependencies(layers: Layers, tool: string) {
    LastLayer(layers, tool) >= 0 ==>
      forall d :: d in DependenciesOf(tool) && LastLayer(layers, d) >= 0 ==> LastLayer(layers, d) < LastLayer(layers, tool)
  }

  /** What `is_dependency_ordered` decides. A dependency absent from the plan is not required. */
  predicate DependencyOrdered(layers: Layers) {
    && (exists k :: 0 <= k < |layers| && layers[k] != [])
    && (forall j, k :: 0 <= j < k < |layers| && layers[k] != [] ==> layers[j] != [])
    && (forall t :: t in DEPENDENT_TOOLS ==> AfterDependencies(layers, t))
  }

  /** With the one dependency there is, the order check compares two layers. */
  lemma OrderedMeans(layers: Layers)
    ensures (forall t :: t in DEPENDENT_TOOLS ==> AfterDependencies(layers, t)) <==>
            (LastLayer(layers, "refund") >= 0 && LastLayer(layers, "order_lookup") >= 0 ==>
               LastLayer(layers, "order_lookup") < LastLayer(layers, "refund"))
  {
    hide LastLayer;
    assert DependenciesOf("refund") == {"order_lookup"} && DEPENDENT_TOOLS == {"refund"};
    assert AfterDependencies(layers, "refund") <==>
           (LastLayer(layers, "refund") >= 0 && LastLayer(layers, "order_lookup") >= 0 ==>
              LastLayer(layers, "order_lookup") < LastLayer(layers, "refund"));
  }

  /** The gap scan: the last populated layer, and whether every layer before it is populated. */
  method ScanGaps(layers: Layers) returns (dense: bool)
    ensures dense <==> (exists k :: 0 <= k < |layers| && layers[k] != []) &&
                       (forall j, k :: 0 <= j < k < |layers| && layers[k] != [] ==> layers[j] != [])
  {
    var lastNonEmpty := -1;
    for i := 0 to |layers|
      invariant -1 <= lastNonEmpty < i
      invariant lastNonEmpty >= 0 ==> layers[lastNonEmpty] != []
      invariant forall k :: lastNonEmpty < k < i ==> layers[k] == []
    {
      if layers[i] != [] { lastNonEmpty := i; }
    }
    if lastNonEmpty < 0 { return false; }
    for i := 0 to lastNonEmpty
      invariant forall k :: 0 <= k < i ==> layers[k] != []
    {
      if layers[i] == [] { return false; }
    }
    return true;
  }

  lemma LastLayerStep(layers: Layers, i: nat, t: string)
    requires i < |layers|
    ensures LastLayer(layers[..i + 1], t) == if t in layers[i] then i else LastLayer(layers[..i], t)
  {
    assert layers[..i + 1][..i] == layers[..i];
  }

  /** The last-write-wins table from tools to layer indices. */
  method LayerTable(layers: Layers) returns (table: map<string, nat>)
    ensures forall t :: t in table <==> LastLayer(layers, t) >= 0
    ensures forall t :: t in table ==> table[t] == LastLayer(layers, t)
  {
    table := map[];
    for i := 0 to |layers|
      invariant forall t :: t in table <==> LastLayer(layers[..i], t) >= 0
      invariant forall t :: t in table ==> table[t] == LastLayer(layers[..i], t)
    {
      ghost var before := table;
      for j := 0 to |layers[i]|
        invariant forall t :: t in table <==> t in before || t in layers[i][..j]
        invariant forall t :: t in table ==> table[t] == if t in layers[i][..j] then i else before[t]
      {
        table := table[layers[i][j] := i];
        assert layers[i][..j + 1] == layers[i][..j] + [layers[i][j]];
      }
      assert layers[i][..|layers[i]|] == layers[i];
      forall t ensures LastLayer(layers[..i + 1], t) == if t in layers[i] then i else LastLayer(layers[..i], t) {
        LastLayerStep(layers, i, t);
      }
    }
    assert layers[..|layers|] == layers;
  }

  /** In other words: cut behind its last populated layer, the plan is not empty and has no empty layer; and if lookup and
      refund are both planned, some refund comes in a later layer than every lookup. */
  lemma OrderedPlans(layers: Layers)
    ensures DependencyOrdered(layers) <==>
              && (exists n :: 1 <= n <= |layers| && Populated(layers[..n]) && Flatten(layers[n..]) == [])
              && ("order_lookup" in Flatten(layers) && "refund" in Flatten(layers) ==>
                    exists j :: 0 <= j < |layers| && "refund" in layers[j] && LookupsBefore(layers, j))
  {
    hide AfterDependencies, LastLayer;
    OrderedMeans(layers);
    DensePlans(layers);
    LookupBeforeRefund(layers);
  }

  predicate Populated(layers: Layers) {
    forall k :: 0 <= k < |layers| ==> layers[k] != []
  }

  predicate LookupsBefore(layers: Layers, j: int) {
    forall i :: 0 <= i < |layers| && "order_lookup" in layers[i] ==> i < j
  }

  lemma {:induction false} FlattenIsEmpty(layers: Layers)
    ensures Flatten(layers) == [] <==> forall k :: 0 <= k < |layers| ==> layers[k] == []
  {
    if layers != [] { FlattenIsEmpty(layers[1..]); }
  }

  /** The plan is empty from `n` on, and not right before. */
  lemma {:induction false} PopulatedEnd(layers: Layers) returns (n: nat)
    ensures n <= |layers| && Flatten(layers[n..]) == [] && (n > 0 ==> layers[n - 1] != [])
  {
    if layers == [] {
      n := 0;
    } else {
      n := PopulatedEnd(layers[1..]);
      if n == 0 && layers[0] == [] {
        assert layers[0..] == layers && layers[1..][0..] == layers[1..];
      } else {
        assert layers[1..][n..] == layers[n + 1..];
        assert n > 0 ==> layers[1..][n - 1] == layers[n];
        n := n + 1;
      }
    }
  }

  lemma CutOffEmpty(layers: Layers, n: nat)
    requires n <= |layers| && Flatten(layers[n..]) == []
    ensures forall k :: n <= k < |layers| ==> layers[k] == []
  {
    hide Flatten;
    FlattenIsEmpty(layers[n..]);
    forall k | n <= k < |layers| ensures layers[k] == [] { assert layers[n..][k - n] == layers[k]; }
  }

  predicate Dense(layers: Layers) {
    && (exists k :: 0 <= k < |layers| && layers[k] != [])
    && (forall j, k :: 0 <= j < k < |layers| && layers[k] != [] ==> layers[j] != [])
  }

  lemma DensePlans(layers: Layers)
    ensures (exists n :: 1 <= n <= |layers| && Populated(layers[..n]) && Flatten(layers[n..]) == []) <==> Dense(layers)
  {
    hide Flatten;
    if exists n :: 1 <= n <= |layers| && Populated(layers[..n]) && Flatten(layers[n..]) == [] {
      var n :| 1 <= n <= |layers| && Populated(layers[..n]) && Flatten(layers[n..]) == [];
      CutOffEmpty(layers, n);
      forall k | 0 <= k < n ensures layers[k] != [] { assert layers[..n][k] == layers[k]; }
      assert layers[0] != [];
    }
    if Dense(layers) {
      var n := PopulatedEnd(layers);
      CutOffEmpty(layers, n);
      assert Populated(layers[..n]);
    }
  }

  lemma LookupBeforeRefund(layers: Layers)
    ensures ("order_lookup" in Flatten(layers) && "refund" in Flatten(layers) ==>
               exists j :: 0 <= j < |layers| && "refund" in layers[j] && LookupsBefore(layers, j)) <==>
            (LastLayer(layers, "refund") >= 0 && LastLayer(layers, "order_lookup") >= 0 ==>
               LastLayer(layers, "order_lookup") < LastLayer(layers, "refund"))
  {
    var r, o := LastLayer(layers, "refund"), LastLayer(layers, "order_lookup");
    if r >= 0 { FlattenHas(layers, r, "refund"); }
    if o >= 0 { FlattenHas(layers, o, "order_lookup"); }
    if "refund" in Flatten(layers) { var k := FlattenFrom(layers, "refund"); }
    if "order_lookup" in Flatten(layers) { var k := FlattenFrom(layers, "order_lookup"); }
    if o < r && o >= 0 { assert LookupsBefore(layers, r); }
  }

  /** `is_dependency_ordered`. */
  method IsDependencyOrdered(layers: Layers) returns (ok: bool)
    ensures ok <==> DependencyOrdered(layers)
  {
    var dense := ScanGaps(layers);
    if !dense { return false; }
    var table := LayerTable(layers);
    var tools := DEPENDENT_TOOLS;
    while tools != {}
      invariant tools <= DEPENDENT_TOOLS
      invariant forall t :: t in DEPENDENT_TOOLS - tools ==> AfterDependencies(layers, t)
    {
      var tool :| tool in tools;
      tools := tools - {tool};
      if tool in table {
        var inOrder := AfterAll(table, table[tool], DependenciesOf(tool));
        if !inOrder { return false; }
      }
    }
    return true;
  }

  /** The inner loop: every listed dependency that is in the table has a smaller layer. */
  method AfterAll(table: map<string, nat>, layer: nat, dependencies: set<string>) returns (ok: bool)
    ensures ok <==> forall d :: d in dependencies && d in table ==> table[d] < layer
  {
    var rest := dependencies;
    while rest != {}
      invariant rest <= dependencies
      invariant forall d :: d in dependencies - rest && d in table ==> table[d] < layer
    {
      var d :| d in rest;
      rest := rest - {d};
      if d in table && table[d] >= layer { return false; }
    }
    return true;
  }

  /** A non-empty deterministic plan passes the check, so it may be stored as a template. */
  lemma FallbackPasses(pending: set<string>)
    requires pending != {}
    ensures DependencyOrdered(FromPendingTools(pending))
  {
    hide DEPENDENT_TOOLS, AfterDependencies, FromPendingTools;
    OrderedMeans(FromPendingTools(pending));
    var plan := FromPendingTools(pending);
    FallbackIsPlan(pending);
    PlanLayersNonEmpty(plan, pending, -1);
    var t :| t in pending;
    assert ToolLayer(t) > -1;
    var r, o := LastLayer(plan, "refund"), LastLayer(plan, "order_lookup");
    if r >= 0 && o >= 0 {
      KnownLayers();
      assert "order_lookup" in plan[o] && ToolLayer("order_lookup") == IndexOf(plan[o]);
      assert "refund" in plan[r] && ToolLayer("refund") == IndexOf(plan[r]);
    }
  }

  lemma {:induction false} PlanLayersNonEmpty(plan: Layers, pending: set<string>, floor: int)
    requires IsPlanAbove(plan, pending, floor)
    ensures forall k :: 0 <= k < |plan| ==> plan[k] != [] && floor < IndexOf(plan[k])
    ensures forall k, t :: 0 <= k < |plan| && t in plan[k] ==> ToolLayer(t) == IndexOf(plan[k])
    ensures forall j, k :: 0 <= j < k < |plan| ==> IndexOf(plan[j]) < IndexOf(plan[k])
  {
    if plan != [] {
      PlanLayersNonEmpty(plan[1..], pending, IndexOf(plan[0]));
      assert forall k :: 0 < k < |plan| ==> plan[k] == plan[1..][k - 1];
    }
  }
}
