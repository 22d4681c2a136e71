/** Policy memory (memory/policy_store.py and its writer in experiments/memory_augmented_v2.py): one entry per intent and
    workflow, found again by the hash of its key text. */
module PolicyStore {
  import opened Values
  import opened Ordering
  import opened Dag
  import opened PolicyStats
  import Json
  import PolicyKey

  datatype Policy = Policy(intent: string, workflow: Layers, dependencies: map<string, seq<string>>,
                           toolLayers: map<string, nat>, stats: Stats)

  // ---- the key ----

  function Points(s: string): (r: Json.Text)
    ensures |r| == |s| && forall k :: 0 <= k < |r| ==> r[k] == s[k] as int
  {
    if s == [] then [] else [s[0] as int] + Points(s[1..])
  }

  function LayerPoints(layer: seq<string>): seq<Json.Text> {
    Json.Map(Points, layer)
  }

  function WorkflowPoints(workflow: Layers): seq<seq<Json.Text>> {
    Json.Map(LayerPoints, workflow)
  }

  function Key(intent: string, workflow: Layers): Json.Text {
    PolicyKey.KeyText(Points(intent), WorkflowPoints(workflow))
  }

  lemma PointsAreInjective(s: string, t: string)
    requires Points(s) == Points(t)
    ensures s == t
  {
    forall k | 0 <= k < |s| ensures s[k] == t[k] { assert Points(s)[k] == Points(t)[k]; }
  }

  lemma WorkflowPointsAreInjective(v: Layers, w: Layers)
    requires WorkflowPoints(v) == WorkflowPoints(w)
    ensures v == w
  {
    hide Points;
    forall k | 0 <= k < |v| ensures v[k] == w[k] {
      assert WorkflowPoints(v)[k] == WorkflowPoints(w)[k];
      forall l | 0 <= l < |v[k]| ensures v[k][l] == w[k][l] {
        assert LayerPoints(v[k])[l] == LayerPoints(w[k])[l];
        PointsAreInjective(v[k][l], w[k][l]);
      }
    }
  }

  /** Characters are never surrogates, so names are proper text. */
  lemma PointsAreProper(workflow: Layers)
    ensures PolicyKey.Proper(WorkflowPoints(workflow))
  {
    var w := WorkflowPoints(workflow);
    forall k, l | 0 <= k < |w| && 0 <= l < |w[k]| ensures Json.Unpaired(w[k][l]) {
      assert w[k] == LayerPoints(workflow[k]);
      assert w[k][l] == Points(workflow[k][l]);
    }
  }

  /** The key text identifies the intent and the workflow. */
  lemma KeysIdentify(i: string, v: Layers, j: string, w: Layers)
    requires Key(i, v) == Key(j, w)
    ensures i == j && v == w
  {
    hide PolicyKey.KeyText, PolicyKey.Proper, Points, WorkflowPoints;
    PointsAreProper(v);
    PointsAreProper(w);
    PolicyKey.ProperKeysAreInjective(Points(i), WorkflowPoints(v), Points(j), WorkflowPoints(w));
    PointsAreInjective(i, j);
    WorkflowPointsAreInjective(v, w);
  }

  // ---- what is derived from the workflow ----

  function NonEmpty(dag: Layers): (r: Layers)
    ensures forall layer :: layer in r <==> layer in dag && layer != []
  {
    if dag == [] then [] else (if dag[0] == [] then [] else [dag[0]]) + NonEmpty(dag[1..])
  }

  /** The places `at`, from `from` on, are those of the non-empty layers. */
  predicate PicksNonEmpty(at: seq<nat>, dag: Layers, from: nat) {
    forall k :: from <= k < |dag| ==> (k in at <==> dag[k] != [])
  }

  lemma PicksNonEmptyEarlier(at: seq<nat>, dag: Layers, from: nat)
    requires from < |dag| && PicksNonEmpty(at, dag, from + 1) && from !in at
    ensures PicksNonEmpty(if dag[from] != [] then [from] + at else at, dag, from)
  {
    assert forall k :: k in [from] + at <==> k == from || k in at;
  }

  /** The stored layers are the dag's non-empty ones, in order: `at` says which, from `from` on. */
  lemma {:induction false} NonEmptyKeeps(dag: Layers, from: nat) returns (at: seq<nat>)
    requires from <= |dag|
    ensures Picks(at, NonEmpty(dag[from..]), dag, from) && PicksNonEmpty(at, dag, from)
    decreases |dag| - from
  {
    if from == |dag| {
      at := [];
    } else {
      hide NonEmpty, Picks, PicksNonEmpty;
      assert dag[from..][0] == dag[from] && dag[from..][1..] == dag[from + 1..];
      at := NonEmptyKeeps(dag, from + 1);
      NonEmptyHead(dag[from..]);
      PicksEarlier(at, NonEmpty(dag[from + 1..]), dag, from);
      PicksNonEmptyEarlier(at, dag, from);
      if dag[from] != [] { at := [from] + at; }
    }
  }

  lemma NonEmptyHead(dag: Layers)
    requires dag != []
    ensures NonEmpty(dag) == if dag[0] == [] then NonEmpty(dag[1..]) else [dag[0]] + NonEmpty(dag[1..])
  {
  }

  /** So the stored workflow dispatches what the dag does, in the same order. */
  lemma {:induction false} NonEmptyFlattens(dag: Layers)
    ensures Flatten(NonEmpty(dag)) == Flatten(dag)
  {
    if dag != [] {
      hide NonEmpty;
      NonEmptyFlattens(dag[1..]);
      NonEmptyHead(dag);
      if dag[0] != [] {
        assert NonEmpty(dag)[1..] == NonEmpty(dag[1..]);
      } else {
        assert Flatten(dag) == Flatten(dag[1..]);
      }
    }
  }

  lemma {:induction false} SizeCounts(workflow: Layers)
    ensures Size(workflow) == |Flatten(workflow)|
  {
    if workflow != [] { SizeCounts(workflow[1..]); }
  }

  function Present(workflow: Layers): set<string> {
    Elements(Flatten(workflow))
  }

  function DependencyGraph(workflow: Layers): map<string, seq<string>> {
    map t | t in Present(workflow) && DependenciesOf(t) * Present(workflow) != {} :: Sorted(DependenciesOf(t) * Present(workflow))
  }

  function ToolLayers(workflow: Layers): map<string, nat> {
    map t | t in Present(workflow) && LastLayer(workflow, t) >= 0 :: LastLayer(workflow, t)
  }

  lemma PresentHasLayer(workflow: Layers, t: string)
    ensures t in Present(workflow) <==> LastLayer(workflow, t) >= 0
  {
    if t in Flatten(workflow) {
      var k := FlattenFrom(workflow, t);
      assert LastLayer(workflow, t) >= k;
    }
    if LastLayer(workflow, t) >= 0 { FlattenHas(workflow, LastLayer(workflow, t), t); }
  }

  /** The stored table gives each tool of the workflow, and no other, the last layer that lists it. */
  lemma ToolLayersMean(workflow: Layers)
    ensures forall t :: t in ToolLayers(workflow) <==> t in Flatten(workflow)
    ensures forall t :: t in ToolLayers(workflow) ==>
              var k := ToolLayers(workflow)[t];
              k < |workflow| && t in workflow[k] && forall l :: k < l < |workflow| ==> t !in workflow[l]
  {
    forall t ensures t in ToolLayers(workflow) <==> t in Flatten(workflow) { PresentHasLayer(workflow, t); }
  }

  /** Every edge of a stored dependency graph leads to an earlier layer of the stored table. */
  predicate GraphFitsLayers(dependencies: map<string, seq<string>>, layers: map<string, nat>) {
    forall t :: t in dependencies ==> t in layers && forall d :: d in dependencies[t] ==> d in layers && layers[d] < layers[t]
  }

  /** The one possible edge is from the refund to the order lookup. */
  lemma OneEdge(workflow: Layers)
    ensures var both := "refund" in Present(workflow) && "order_lookup" in Present(workflow);
            DependencyGraph(workflow) == if both then map["refund" := ["order_lookup"]] else map[]
  {
    var present := Present(workflow);
    var g := DependencyGraph(workflow);
    assert forall t :: t in g ==> t == "refund";
    if "order_lookup" in present {
      assert DependenciesOf("refund") * present == {"order_lookup"};
      SingletonListing("order_lookup");
    } else {
      assert DependenciesOf("refund") * present == {};
    }
  }

  lemma SingletonListing(t: string)
    ensures Sorted({t}) == [t]
  {
    SortedAscends({t});
    assert Sorted({t})[0] in {t};
  }

  /** The stored graph fits the stored layers exactly when the workflow passes the order check, which the policy writer
      itself does not make. */
  lemma GraphFitsIfOrdered(workflow: Layers)
    requires workflow != [] && forall k :: 0 <= k < |workflow| ==> workflow[k] != []
    ensures GraphFitsLayers(DependencyGraph(workflow), ToolLayers(workflow)) <==> DependencyOrdered(workflow)
  {
    hide DependencyGraph, Present, DEPENDENT_TOOLS, AfterDependencies;
    OneEdge(workflow);
    OrderedMeans(workflow);
    var present := Present(workflow);
    forall t ensures t in ToolLayers(workflow) <==> t in present { PresentHasLayer(workflow, t); }
    PresentHasLayer(workflow, "refund");
    PresentHasLayer(workflow, "order_lookup");
    assert workflow[0] != [];
    var g := DependencyGraph(workflow);
    if "refund" in present && "order_lookup" in present { assert g["refund"] == ["order_lookup"] && "order_lookup" in g["refund"]; }
  }

  // ---- the store ----

  /** The contributions to one policy since it was last started over. */
  function Since(history: seq<Contribution>, intent: string, workflow: Layers): (r: seq<Contribution>)
    ensures forall c :: c in r ==> c in history && c.intent == intent && c.workflow == workflow
  {
    if history == [] then [] else
      var c := history[|history| - 1];
      var before := Since(history[..|history| - 1], intent, workflow);
      if c.intent == intent && c.workflow == workflow then (if c.restart then [] else before) + [c] else before
  }

  lemma SinceAppend(history: seq<Contribution>, c: Contribution, intent: string, workflow: Layers)
    ensures Since(history + [c], intent, workflow) ==
            var before := Since(history, intent, workflow);
            if c.intent == intent && c.workflow == workflow then (if c.restart then [] else before) + [c] else before
  {
    assert (history + [c])[..|history|] == history;
  }

  lemma {:induction false} SinceNonEmpty(history: seq<Contribution>, c: Contribution)
    requires c in history
    ensures Since(history, c.intent, c.workflow) != []
  {
    if c != history[|history| - 1] {
      assert c in history[..|history| - 1];
      SinceNonEmpty(history[..|history| - 1], c);
    }
  }

  /** All contributions to one policy. */
  function OfPolicy(history: seq<Contribution>, intent: string, workflow: Layers): seq<Contribution> {
    if history == [] then [] else
      var c := history[|history| - 1];
      OfPolicy(history[..|history| - 1], intent, workflow) + if c.intent == intent && c.workflow == workflow then [c] else []
  }

  predicate IsEnd(kept: seq<Contribution>, all: seq<Contribution>) {
    |kept| <= |all| && kept == all[|all| - |kept|..]
  }

  lemma OfPolicyAppend(history: seq<Contribution>, c: Contribution, intent: string, workflow: Layers)
    ensures OfPolicy(history + [c], intent, workflow) ==
            OfPolicy(history, intent, workflow) + if c.intent == intent && c.workflow == workflow then [c] else []
  {
    assert (history + [c])[..|history|] == history;
  }

  /** A policy sums up its contributions from its last restart on: the end of all of them. */
  lemma {:induction false} SinceIsTheEnd(history: seq<Contribution>, intent: string, workflow: Layers)
    ensures IsEnd(Since(history, intent, workflow), OfPolicy(history, intent, workflow))
  {
    if history != [] {
      hide Since, OfPolicy, IsEnd;
      var c, rest := history[|history| - 1], history[..|history| - 1];
      assert history == rest + [c];
      SinceIsTheEnd(rest, intent, workflow);
      SinceAppend(rest, c, intent, workflow);
      OfPolicyAppend(rest, c, intent, workflow);
      EndGrows(OfPolicy(rest, intent, workflow), Since(rest, intent, workflow), c);
    }
  }

  lemma EndGrows(all: seq<Contribution>, kept: seq<Contribution>, c: Contribution)
    requires IsEnd(kept, all)
    ensures IsEnd(kept + [c], all + [c]) && IsEnd([] + [c], all + [c]) && IsEnd(kept, all + [])
  {
    assert (all + [c])[|all| - |kept|..] == kept + [c];
    assert all + [] == all;
  }

  /** As long as reads succeed, it sums up all of them. */
  lemma {:induction false} SinceIsAll(history: seq<Contribution>, intent: string, workflow: Layers)
    requires forall c :: c in history ==> !c.restart
    ensures Since(history, intent, workflow) == OfPolicy(history, intent, workflow)
  {
    if history != [] {
      assert history[|history| - 1] in history;
      SinceIsAll(history[..|history| - 1], intent, workflow);
    }
  }

  /** How policies are named: an id for an intent and a workflow. */
  type Naming = (string, Layers) -> string

  /** Different policies in the history have different ids. */
  predicate CollisionFree(ids: Naming, history: seq<Contribution>) {
    forall a, b :: a in history && b in history && IdOf(ids, a) == IdOf(ids, b) ==>
      a.intent == b.intent && a.workflow == b.workflow
  }

  /** The entry is the exact summary of its policy's contributions. */
  predicate Summarises(p: Policy, history: seq<Contribution>, intent: string, workflow: Layers) {
    && p.intent == intent && p.workflow == workflow
    && p.dependencies == DependencyGraph(workflow) && p.toolLayers == ToolLayers(workflow)
    && Exact(p.stats, Since(history, intent, workflow), Size(workflow))
  }

  function IdOf(ids: Naming, c: Contribution): string {
    ids(c.intent, c.workflow)
  }

  function Ids(ids: Naming, history: seq<Contribution>): set<string> {
    set c | c in history :: IdOf(ids, c)
  }

  function Identities(history: seq<Contribution>): set<(string, Layers)> {
    set c | c in history :: (c.intent, c.workflow)
  }

  /** One entry per distinct intent and workflow, each an exact summary. */
  predicate Faithful(ids: Naming, entries: map<string, Policy>, history: seq<Contribution>) {
    && entries.Keys == Ids(ids, history)
    && forall c :: c in history ==> IdOf(ids, c) in entries
                                    && Summarises(entries[IdOf(ids, c)], history, c.intent, c.workflow)
  }

  lemma {:induction false} FaithfulCounts(ids: Naming, entries: map<string, Policy>, history: seq<Contribution>)
    requires CollisionFree(ids, history) && entries.Keys == Ids(ids, history)
    ensures |entries| == |Identities(history)|
  {
    IdsCount(ids, history);
    assert |entries| == |entries.Keys|;
  }

  lemma {:induction false} IdsCount(ids: Naming, history: seq<Contribution>)
    requires CollisionFree(ids, history)
    ensures |Ids(ids, history)| == |Identities(history)|
  {
    hide IdOf, Ids, Identities;
    if history == [] {
      NoIds(ids);
    } else {
      var c, rest := history[|history| - 1], history[..|history| - 1];
      assert history == rest + [c] && forall x :: x in rest ==> x in history;
      IdsCount(ids, rest);
      IdsAppend(ids, rest, c);
      IdentitiesAppend(rest, c);
      NoveltyAgrees(ids, rest, c);
      assert Ids(ids, history) == Ids(ids, rest) + {IdOf(ids, c)};
      assert Identities(history) == Identities(rest) + {(c.intent, c.workflow)};
      AddOne(Ids(ids, rest), IdOf(ids, c));
      AddOne(Identities(rest), (c.intent, c.workflow));
    }
  }

  lemma AddOne<T>(s: set<T>, x: T)
    ensures |s + {x}| == |s| + if x in s then 0 else 1
  {
    if x in s { assert s + {x} == s; }
  }

  lemma NoIds(ids: Naming)
    ensures Ids(ids, []) == {} && Identities([]) == {}
  {
  }

  lemma IdsAppend(ids: Naming, history: seq<Contribution>, c: Contribution)
    ensures Ids(ids, history + [c]) == Ids(ids, history) + {IdOf(ids, c)}
  {
    hide IdOf;
    assert forall d :: d in history + [c] <==> d == c || d in history;
  }

  lemma IdentitiesAppend(history: seq<Contribution>, c: Contribution)
    ensures Identities(history + [c]) == Identities(history) + {(c.intent, c.workflow)}
  {
    assert forall d :: d in history + [c] <==> d == c || d in history;
  }

  lemma NoveltyAgrees(ids: Naming, history: seq<Contribution>, c: Contribution)
    requires CollisionFree(ids, history + [c])
    ensures IdOf(ids, c) in Ids(ids, history) <==> (c.intent, c.workflow) in Identities(history)
  {
    hide Ids, Identities;
    var all := history + [c];
    assert all[|history|] == c && forall d :: d in history ==> d in all;
    SameNovelty(ids, history, c);
  }

  /** A contribution brings a new id exactly when it brings a new intent or workflow. */
  lemma SameNovelty(ids: Naming, history: seq<Contribution>, c: Contribution)
    requires forall d :: d in history && IdOf(ids, d) == IdOf(ids, c) ==> d.intent == c.intent && d.workflow == c.workflow
    ensures IdOf(ids, c) in Ids(ids, history) <==> (c.intent, c.workflow) in Identities(history)
  {
    if IdOf(ids, c) in Ids(ids, history) {
      var d :| d in history && IdOf(ids, d) == IdOf(ids, c);
      assert (d.intent, d.workflow) in Identities(history);
    }
    if (c.intent, c.workflow) in Identities(history) {
      var d :| d in history && (d.intent, d.workflow) == (c.intent, c.workflow);
      assert IdOf(ids, d) in Ids(ids, history);
    }
  }

  /** The statistics after one more contribution. */
  function Updated(ids: Naming, entries: map<string, Policy>, c: Contribution): Stats {
    var id := IdOf(ids, c);
    if !c.restart && id in entries then Reinforce(entries[id].stats, c) else First(c)
  }

  function PolicyOf(c: Contribution, stats: Stats): Policy {
    Policy(c.intent, c.workflow, DependencyGraph(c.workflow), ToolLayers(c.workflow), stats)
  }

  /** Whatever entry stands under a contribution's id belongs to that contribution's policy. */
  lemma EntryIsOwn(ids: Naming, entries: map<string, Policy>, history: seq<Contribution>, c: Contribution)
    requires Faithful(ids, entries, history) && CollisionFree(ids, history + [c]) && IdOf(ids, c) in entries
    ensures Summarises(entries[IdOf(ids, c)], history, c.intent, c.workflow)
  {
    hide Summarises;
    assert IdOf(ids, c) in Ids(ids, history);
    var d :| d in history && IdOf(ids, d) == IdOf(ids, c);
    var all := history + [c];
    assert all[|history|] == c && d in all;
  }

  lemma HistoryHasEntry(ids: Naming, entries: map<string, Policy>, history: seq<Contribution>, c: Contribution)
    requires Faithful(ids, entries, history)
    ensures Since(history, c.intent, c.workflow) != [] ==> IdOf(ids, c) in entries
  {
    hide Summarises;
    var before := Since(history, c.intent, c.workflow);
    if before != [] {
      assert before[0] in before;
      assert before[0] in history && IdOf(ids, before[0]) == IdOf(ids, c);
      assert IdOf(ids, c) in Ids(ids, history);
    }
  }

  lemma UpdatedIsExact(ids: Naming, entries: map<string, Policy>, history: seq<Contribution>, c: Contribution)
    requires Faithful(ids, entries, history) && CollisionFree(ids, history + [c])
    ensures Exact(Updated(ids, entries, c), Since(history + [c], c.intent, c.workflow), Size(c.workflow))
  {
    hide Exact, Reinforce, First, Faithful, CollisionFree, Since, IdOf;
    var before := Since(history, c.intent, c.workflow);
    SinceAppend(history, c, c.intent, c.workflow);
    assert [] + [c] == [c];
    FirstIsExact(c);
    if IdOf(ids, c) in entries {
      EntryIsOwn(ids, entries, history, c);
      ReinforceIsExact(entries[IdOf(ids, c)].stats, before, c);
    } else {
      HistoryHasEntry(ids, entries, history, c);
    }
  }

  lemma OthersKeepTheirSummary(ids: Naming, history: seq<Contribution>, c: Contribution, d: Contribution, p: Policy)
    requires CollisionFree(ids, history + [c]) && d in history && Summarises(p, history, d.intent, d.workflow)
    ensures (d.intent, d.workflow) != (c.intent, c.workflow) ==>
              IdOf(ids, d) != IdOf(ids, c) && Summarises(p, history + [c], d.intent, d.workflow)
  {
    hide Exact;
    SinceAppend(history, c, d.intent, d.workflow);
    var all := history + [c];
    assert all[|history|] == c && d in all;
  }

  lemma EntryStaysFaithful(ids: Naming, entries: map<string, Policy>, history: seq<Contribution>,
                           c: Contribution, d: Contribution, p: Policy)
    requires Faithful(ids, entries, history) && CollisionFree(ids, history + [c]) && d in history
    requires Summarises(p, history + [c], c.intent, c.workflow)
    ensures var entries' := entries[IdOf(ids, c) := p];
            IdOf(ids, d) in entries' && Summarises(entries'[IdOf(ids, d)], history + [c], d.intent, d.workflow)
  {
    hide Summarises, CollisionFree;
    OthersKeepTheirSummary(ids, history, c, d, entries[IdOf(ids, d)]);
  }

  /** Writing a contribution under its id keeps the store faithful. */
  lemma WriteStaysFaithful(ids: Naming, entries: map<string, Policy>, history: seq<Contribution>, c: Contribution)
    requires Faithful(ids, entries, history) && CollisionFree(ids, history + [c])
    ensures Faithful(ids, entries[IdOf(ids, c) := PolicyOf(c, Updated(ids, entries, c))], history + [c])
  {
    hide Exact, Updated, CollisionFree, Since, IdOf, Ids;
    var p, all := PolicyOf(c, Updated(ids, entries, c)), history + [c];
    UpdatedIsExact(ids, entries, history, c);
    FaithfulWith(ids, entries, history, c, p);
  }

  lemma FaithfulWith(ids: Naming, entries: map<string, Policy>, history: seq<Contribution>, c: Contribution,
                     p: Policy)
    requires Faithful(ids, entries, history) && CollisionFree(ids, history + [c])
    requires Summarises(p, history + [c], c.intent, c.workflow)
    ensures Faithful(ids, entries[IdOf(ids, c) := p], history + [c])
  {
    hide CollisionFree, IdOf, Ids, Summarises;
    IdsAppend(ids, history, c);
    var entries' := entries[IdOf(ids, c) := p];
    forall d | d in history + [c]
      ensures IdOf(ids, d) in entries' && Summarises(entries'[IdOf(ids, d)], history + [c], d.intent, d.workflow)
    {
      if d in history { EntryStaysFaithful(ids, entries, history, c, d, p); }
    }
  }

  /** A stored policy in terms of the plan it was made from: it dispatches the plan's tools in the plan's order, knows their
      number and layers, and credits the ticket. */
  predicate StoredFor(p: Policy, intent: string, dag: Layers, ticket: string) {
    && p.intent == intent && Flatten(p.workflow) == Flatten(dag) && (forall k :: 0 <= k < |p.workflow| ==> p.workflow[k] != [])
    && p.stats.averageCalls == |Flatten(dag)| as real
    && p.toolLayers.Keys == Elements(Flatten(dag))
    && (forall t :: t in p.toolLayers ==> p.toolLayers[t] < |p.workflow| && t in p.workflow[p.toolLayers[t]])
    && ticket in p.stats.createdFrom
  }

  lemma UpdateCredits(ids: Naming, entries: map<string, Policy>, history: seq<Contribution>, c: Contribution)
    requires Faithful(ids, entries, history) && CollisionFree(ids, history + [c])
    ensures c.ticket in Updated(ids, entries, c).createdFrom
  {
    hide Faithful, CollisionFree, Credit, IdOf, Since;
    if !c.restart && IdOf(ids, c) in entries {
      EntryIsOwn(ids, entries, history, c);
      CreditIncludes(entries[IdOf(ids, c)].stats.createdFrom, c.ticket);
    }
  }

  /** What a successful write stores. */
  lemma PolicyIsStored(ids: Naming, entries: map<string, Policy>, history: seq<Contribution>, c: Contribution, dag: Layers)
    requires Faithful(ids, entries, history) && CollisionFree(ids, history + [c]) && c.workflow == NonEmpty(dag)
    ensures StoredFor(PolicyOf(c, Updated(ids, entries, c)), c.intent, dag, c.ticket)
  {
    hide Faithful, CollisionFree, IdOf, Since, ToolLayers, DependencyGraph, Updated, Credited;
    NonEmptyFlattens(dag);
    SizeCounts(c.workflow);
    ToolLayersMean(c.workflow);
    UpdatedIsExact(ids, entries, history, c);
    UpdateCredits(ids, entries, history, c);
    forall k | 0 <= k < |c.workflow| ensures c.workflow[k] != [] { assert c.workflow[k] in NonEmpty(dag); }
  }

  /** The ids of the store: a hash of the key text. */
  function Hashed(digest: Json.Text -> string): Naming {
    (intent: string, workflow: Layers) => digest(Key(intent, workflow))
  }

  /** The hash tells the key texts in the history apart. */
  predicate NoCollision(digest: Json.Text -> string, history: seq<Contribution>) {
    forall a, b :: a in history && b in history && digest(Key(a.intent, a.workflow)) == digest(Key(b.intent, b.workflow)) ==>
      Key(a.intent, a.workflow) == Key(b.intent, b.workflow)
  }

  /** Then it tells the policies apart, because the key text identifies them. */
  lemma HashedTellsApart(digest: Json.Text -> string, history: seq<Contribution>)
    requires NoCollision(digest, history)
    ensures CollisionFree(Hashed(digest), history)
  {
    hide Key;
    forall a, b | a in history && b in history && IdOf(Hashed(digest), a) == IdOf(Hashed(digest), b)
      ensures a.intent == b.intent && a.workflow == b.workflow
    {
      KeysIdentify(a.intent, a.workflow, b.intent, b.workflow);
    }
  }

  class PolicyMemory {
    const digest: Json.Text -> string
    var entries: map<string, Policy>
    ghost var history: seq<Contribution>

    ghost predicate Valid()
      reads this
    {
      Faithful(Hashed(digest), entries, history)
    }

    constructor (digest: Json.Text -> string)
      ensures Valid() && history == [] && this.digest == digest
    {
      this.digest, entries, history := digest, map[], [];
    }

    /** The write-back of a resolved ticket. `readOk` and `writeOk` say whether the storage calls succeed: a failed read
        starts the policy over, a failed write changes nothing. */
    method WriteBack(ticket: string, intent: string, dag: Layers, replans: nat, readOk: bool, writeOk: bool)
      requires Valid()
      requires NoCollision(digest, history + [Contribution(intent, NonEmpty(dag), ticket, replans, !readOk)])
      modifies this
      ensures Valid()
      ensures history == if NonEmpty(dag) != [] && writeOk
                         then old(history) + [Contribution(intent, NonEmpty(dag), ticket, replans, !readOk)]
                         else old(history)
      ensures !(NonEmpty(dag) != [] && writeOk) ==> entries == old(entries)
      ensures Flatten(dag) != [] && writeOk ==>
                exists id :: id in entries && StoredFor(entries[id], intent, dag, ticket)
                             && entries == old(entries)[id := entries[id]]
    {
      hide Faithful, CollisionFree, NoCollision, Key, StoredFor, DependencyGraph, ToolLayers;
      var workflow := NonEmpty(dag);
      NonEmptyFlattens(dag);
      if workflow == [] { return; }
      var id := digest(Key(intent, workflow));
      var calls := Size(workflow) as real;
      var existing := if readOk && id in entries then Some(entries[id].stats) else None;
      var stats := Stats(1, calls, replans as real, 0.5, [ticket]);
      if existing.Some? {
        var e := existing.value;
        stats := Stats(e.usage + 1, RunningAverage(e.averageCalls, e.usage, calls),
                       RunningAverage(e.averageReplans, e.usage, replans as real),
                       PolicyStats.Min(1.0, e.confidence + 0.05), Credit(e.createdFrom, ticket));
      }
      if writeOk {
        ghost var c := Contribution(intent, workflow, ticket, replans, !readOk);
        HashedTellsApart(digest, history + [c]);
        WriteStaysFaithful(Hashed(digest), entries, history, c);
        PolicyIsStored(Hashed(digest), entries, history, c, dag);
        entries := entries[id := Policy(intent, workflow, DependencyGraph(workflow), ToolLayers(workflow), stats)];
        history := history + [c];
        assert StoredFor(entries[id], intent, dag, ticket);
      }
    }

    /** `count_policies`: the number of distinct pairs of intent and workflow written so far. */
    method CountPolicies() returns (n: nat)
      requires Valid() && NoCollision(digest, history)
      ensures n == |Identities(history)|
    {
      HashedTellsApart(digest, history);
      FaithfulCounts(Hashed(digest), entries, history);
      return |entries|;
    }
  }
}
