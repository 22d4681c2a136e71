/** Ticket admission (src/api/main.py): the cache lookup, the rate check, the pipeline run and the cache write of many
    requests, interleaved in any order. */
module Admission {
  import opened Values
  import opened Windows
  import opened Limiter
  import opened ClientLimiter

  /** What a finished pipeline run reports. */
  datatype Outcome = Outcome(resolved: bool, escalate: bool, message: string, replans: nat, memoryHit: bool,
                             iteration: nat, tools: seq<string>)

  datatype Response = Response(ticketId: string, outcome: Outcome)

  datatype Reply = Answer(response: Response, replayed: bool) | TooMany | Failed

  /** How far a request has come. */
  datatype Phase =
    | Arrived
    | Missed
    | Admitted
    | Ran(response: Response)
    | Replied(reply: Reply)

  datatype Key = Key(client: string, ticket: string)

  /** `begun` and `ended` are the ticks of the lookup and of the reply; `asked` says that the limiter was consulted. */
  datatype Request = Request(key: Key, phase: Phase, begun: nat, ended: nat, asked: bool)

  datatype State = State(cache: map<Key, Response>, limits: Limits, requests: seq<Request>, now: real, tick: nat)

  datatype Action =
    | Arrive(key: Key)
    | Lookup(i: nat)
    | Check(i: nat, elapsed: real)
    | Finish(i: nat, outcome: Option<Outcome>)
    | Store(i: nat)

  datatype Settings = Settings(maxCalls: int, window: real)

  function Init(): State {
    State(map[], Limits(map[], map[]), [], 0.0, 0)
  }

  function SetRequest(s: State, i: nat, r: Request): State
    requires i < |s.requests|
  {
    s.(requests := s.requests[i := r])
  }

  function LookUp(s: State, i: nat): State
    requires i < |s.requests|
  {
    var r := s.requests[i].(begun := s.tick);
    SetRequest(s, i, if r.key in s.cache then r.(phase := Replied(Answer(s.cache[r.key], true)), ended := s.tick)
                     else r.(phase := Missed))
  }

  function CheckRate(cfg: Settings, s: State, i: nat, elapsed: real): State
    requires i < |s.requests|
  {
    var now := s.now + if elapsed > 0.0 then elapsed else 0.0;
    var (limits, ok) := Allow(s.limits, cfg.maxCalls, cfg.window, s.requests[i].key.client, now);
    var r := s.requests[i].(asked := true);
    SetRequest(s.(limits := limits, now := now), i,
               if ok then r.(phase := Admitted) else r.(phase := Replied(TooMany), ended := s.tick))
  }

  function FinishRun(s: State, i: nat, outcome: Option<Outcome>): State
    requires i < |s.requests|
  {
    var r := s.requests[i];
    SetRequest(s, i, if outcome.Some? then r.(phase := Ran(Response(r.key.ticket, outcome.value)))
                     else r.(phase := Replied(Failed), ended := s.tick))
  }

  function StoreReply(s: State, i: nat): State
    requires i < |s.requests| && s.requests[i].phase.Ran?
  {
    var r := s.requests[i];
    SetRequest(s.(cache := s.cache[r.key := r.phase.response]), i,
               r.(phase := Replied(Answer(r.phase.response, false)), ended := s.tick))
  }

  /** An action is one locked section; one that does not fit the request's phase does nothing. */
  function Act(cfg: Settings, s: State, a: Action): State {
    match a
    case Arrive(key) => s.(requests := s.requests + [Request(key, Arrived, 0, 0, false)])
    case Lookup(i) => if i < |s.requests| && s.requests[i].phase.Arrived? then LookUp(s, i) else s
    case Check(i, elapsed) => if i < |s.requests| && s.requests[i].phase.Missed? then CheckRate(cfg, s, i, elapsed) else s
    case Finish(i, outcome) => if i < |s.requests| && s.requests[i].phase.Admitted? then FinishRun(s, i, outcome) else s
    case Store(i) => if i < |s.requests| && s.requests[i].phase.Ran? then StoreReply(s, i) else s
  }

  function Step(cfg: Settings, s: State, a: Action): State {
    var s' := Act(cfg, s, a);
    s'.(tick := s.tick + 1)
  }

  function Run(cfg: Settings, s: State, actions: seq<Action>): State
    decreases |actions|
  {
    if actions == [] then s else Run(cfg, Step(cfg, s, actions[0]), actions[1..])
  }

  // ---- what every interleaving keeps ----

  predicate Completed(r: Request) {
    r.phase.Replied? && r.phase.reply.Answer? && !r.phase.reply.replayed
  }

  predicate Replayed(r: Request) {
    r.phase.Replied? && r.phase.reply.Answer? && r.phase.reply.replayed
  }

  /** The lookup found nothing. */
  predicate PastMiss(r: Request) {
    !r.phase.Arrived? && !Replayed(r)
  }

  /** Some completed run of this key produced the response. */
  predicate ProducedBy(requests: seq<Request>, key: Key, response: Response) {
    exists j :: 0 <= j < |requests| && requests[j].key == key && Completed(requests[j]) && requests[j].phase.reply.response == response
  }

  predicate CacheIsProduced(s: State) {
    forall k :: k in s.cache ==> ProducedBy(s.requests, k, s.cache[k])
  }

  predicate ReplaysAreProduced(s: State) {
    forall i :: 0 <= i < |s.requests| && Replayed(s.requests[i]) ==>
      ProducedBy(s.requests, s.requests[i].key, s.requests[i].phase.reply.response)
  }

  predicate CompletedIsCached(s: State) {
    forall i :: 0 <= i < |s.requests| && Completed(s.requests[i]) ==> s.requests[i].key in s.cache
  }

  /** A lookup that missed came before the write of every completed run of the same key. */
  predicate MissesPrecedeWrites(s: State) {
    forall i, j :: 0 <= i < |s.requests| && 0 <= j < |s.requests| && s.requests[i].key == s.requests[j].key
                   && PastMiss(s.requests[i]) && Completed(s.requests[j]) ==>
      s.requests[i].begun < s.requests[j].ended || i == j
  }

  predicate TicksArePast(s: State) {
    forall i :: 0 <= i < |s.requests| ==> (s.requests[i].begun < s.tick || s.requests[i].phase.Arrived?)
  }

  /** A response carries its request's ticket; a replay never consulted the limiter. */
  predicate PhasesFit(s: State) {
    forall i :: 0 <= i < |s.requests| ==>
      var r := s.requests[i];
      && (r.phase.Ran? ==> r.phase.response.ticketId == r.key.ticket)
      && (Completed(r) ==> r.phase.reply.response.ticketId == r.key.ticket)
      && (r.phase.Arrived? || r.phase.Missed? || Replayed(r) ==> !r.asked)
  }

  predicate Inv(s: State) {
    CacheIsProduced(s) && ReplaysAreProduced(s) && CompletedIsCached(s) && MissesPrecedeWrites(s) && TicksArePast(s) && PhasesFit(s)
  }

  lemma ProducedStays(rs: seq<Request>, rs': seq<Request>, key: Key, response: Response)
    requires ProducedBy(rs, key, response) && |rs| <= |rs'|
    requires forall j :: 0 <= j < |rs| && Completed(rs[j]) ==> rs'[j] == rs[j]
    ensures ProducedBy(rs', key, response)
  {
    var j :| 0 <= j < |rs| && rs[j].key == key && Completed(rs[j]) && rs[j].phase.reply.response == response;
    assert rs'[j] == rs[j];
  }

  lemma ProvenanceStays(s: State, s': State)
    requires CacheIsProduced(s) && ReplaysAreProduced(s) && |s.requests| <= |s'.requests|
    requires forall j :: 0 <= j < |s.requests| && Completed(s.requests[j]) ==> s'.requests[j] == s.requests[j]
    ensures forall k :: k in s.cache ==> ProducedBy(s'.requests, k, s.cache[k])
    ensures forall i :: 0 <= i < |s.requests| && Replayed(s.requests[i]) ==>
              ProducedBy(s'.requests, s.requests[i].key, s.requests[i].phase.reply.response)
  {
    hide ProducedBy;
    forall k | k in s.cache ensures ProducedBy(s'.requests, k, s.cache[k]) {
      ProducedStays(s.requests, s'.requests, k, s.cache[k]);
    }
    forall i | 0 <= i < |s.requests| && Replayed(s.requests[i])
      ensures ProducedBy(s'.requests, s.requests[i].key, s.requests[i].phase.reply.response)
    {
      ProducedStays(s.requests, s'.requests, s.requests[i].key, s.requests[i].phase.reply.response);
    }
  }

  lemma CompletedStays(cfg: Settings, s: State, a: Action)
    ensures var s' := Step(cfg, s, a);
            && |s.requests| <= |s'.requests|
            && (forall j :: 0 <= j < |s.requests| && s.requests[j].phase.Replied? ==> s'.requests[j] == s.requests[j])
            && (forall j :: 0 <= j < |s.requests| ==> s'.requests[j].key == s.requests[j].key)
  {
    hide Allow;
  }

  /** A request that is newly answered from the cache carries the cached response. */
  lemma NewReplays(cfg: Settings, s: State, a: Action, i: nat)
    requires i < |Step(cfg, s, a).requests| && Replayed(Step(cfg, s, a).requests[i])
    requires i >= |s.requests| || !Replayed(s.requests[i])
    ensures var s' := Step(cfg, s, a);
            && s'.cache == s.cache && s'.requests[i].key in s.cache
            && s'.requests[i].phase.reply.response == s.cache[s'.requests[i].key]
  {
    hide Allow;
  }

  lemma NewCached(cfg: Settings, s: State, a: Action, k: Key)
    requires CacheIsProduced(s) && k in Step(cfg, s, a).cache
    ensures (k in s.cache && Step(cfg, s, a).cache[k] == s.cache[k])
            || ProducedBy(Step(cfg, s, a).requests, k, Step(cfg, s, a).cache[k])
  {
    hide Allow;
    var s' := Step(cfg, s, a);
    if a.Store? && s.cache != s'.cache {
      var r := s'.requests[a.i];
      assert r.key == s.requests[a.i].key && Completed(r);
    }
  }

  lemma StepKeepsProvenance(cfg: Settings, s: State, a: Action)
    requires CacheIsProduced(s) && ReplaysAreProduced(s)
    ensures CacheIsProduced(Step(cfg, s, a)) && ReplaysAreProduced(Step(cfg, s, a))
  {
    hide Step, ProducedBy;
    var s' := Step(cfg, s, a);
    CompletedStays(cfg, s, a);
    ProvenanceStays(s, s');
    forall k | k in s'.cache ensures ProducedBy(s'.requests, k, s'.cache[k]) { NewCached(cfg, s, a, k); }
    forall i | 0 <= i < |s'.requests| && Replayed(s'.requests[i])
      ensures ProducedBy(s'.requests, s'.requests[i].key, s'.requests[i].phase.reply.response)
    {
      if i >= |s.requests| || !Replayed(s.requests[i]) { NewReplays(cfg, s, a, i); }
    }
  }

  lemma StepKeepsCached(cfg: Settings, s: State, a: Action)
    requires CompletedIsCached(s)
    ensures CompletedIsCached(Step(cfg, s, a))
  {
    hide Allow;
  }

  lemma StepKeepsTicks(cfg: Settings, s: State, a: Action)
    requires TicksArePast(s)
    ensures TicksArePast(Step(cfg, s, a))
  {
    hide Allow;
  }

  lemma NewMiss(cfg: Settings, s: State, a: Action, i: nat)
    requires i < |Step(cfg, s, a).requests| && PastMiss(Step(cfg, s, a).requests[i])
    ensures i < |s.requests|
    ensures var r, r' := s.requests[i], Step(cfg, s, a).requests[i];
            r'.key == r.key && ((PastMiss(r) && r'.begun == r.begun) || (r'.begun == s.tick && r.key !in s.cache))
  {
    hide Allow;
  }

  lemma NewCompleted(cfg: Settings, s: State, a: Action, j: nat)
    requires j < |Step(cfg, s, a).requests| && Completed(Step(cfg, s, a).requests[j])
    ensures j < |s.requests| && Step(cfg, s, a).requests[j].key == s.requests[j].key
    ensures (Completed(s.requests[j]) && Step(cfg, s, a).requests[j] == s.requests[j]) ||
            (Step(cfg, s, a).requests[j].ended == s.tick && a == Store(j))
  {
    hide Allow;
  }

  /** A write changes no other request. */
  lemma WriteIsAlone(cfg: Settings, s: State, i: nat, j: nat)
    requires i < |s.requests| && i != j
    ensures i < |Step(cfg, s, Store(j)).requests| && Step(cfg, s, Store(j)).requests[i] == s.requests[i]
  {
  }

  lemma StepKeepsOrder(cfg: Settings, s: State, a: Action)
    requires CompletedIsCached(s) && MissesPrecedeWrites(s) && TicksArePast(s)
    ensures MissesPrecedeWrites(Step(cfg, s, a))
  {
    hide Step, PastMiss, Completed;
    var s' := Step(cfg, s, a);
    forall i, j | 0 <= i < |s'.requests| && 0 <= j < |s'.requests| && s'.requests[i].key == s'.requests[j].key
                  && PastMiss(s'.requests[i]) && Completed(s'.requests[j])
      ensures s'.requests[i].begun < s'.requests[j].ended || i == j
    {
      NewMiss(cfg, s, a, i);
      NewCompleted(cfg, s, a, j);
      if i != j && a == Store(j) {
        WriteIsAlone(cfg, s, i, j);
        MissHasBegun(s.requests[i]);
      }
    }
  }

  lemma MissHasBegun(r: Request)
    ensures PastMiss(r) ==> !r.phase.Arrived?
  {
  }

  lemma StepKeepsPhases(cfg: Settings, s: State, a: Action)
    requires PhasesFit(s)
    ensures PhasesFit(Step(cfg, s, a))
  {
    hide Allow;
  }

  lemma {:induction false} RunKeepsInv(cfg: Settings, s: State, actions: seq<Action>)
    requires Inv(s)
    ensures Inv(Run(cfg, s, actions))
    decreases |actions|
  {
    hide Step, CacheIsProduced, ReplaysAreProduced, CompletedIsCached, MissesPrecedeWrites, TicksArePast, PhasesFit;
    if actions != [] {
      StepKeepsProvenance(cfg, s, actions[0]);
      StepKeepsCached(cfg, s, actions[0]);
      StepKeepsTicks(cfg, s, actions[0]);
      StepKeepsOrder(cfg, s, actions[0]);
      StepKeepsPhases(cfg, s, actions[0]);
      RunKeepsInv(cfg, Step(cfg, s, actions[0]), actions[1..]);
    }
  }

  // ---- the limiter across requests ----

  /** The request was let through by the limiter. */
  predicate Granted(r: Request) {
    r.phase.Admitted? || r.phase.Ran? || Completed(r) || (r.phase.Replied? && r.phase.reply.Failed?)
  }

  function CountGranted(rs: seq<Request>, client: string): nat {
    if rs == [] then 0
    else CountGranted(rs[..|rs| - 1], client)
         + if rs[|rs| - 1].key.client == client && Granted(rs[|rs| - 1]) then 1 else 0
  }

  lemma CountAppend(rs: seq<Request>, r: Request, client: string)
    ensures CountGranted(rs + [r], client) == CountGranted(rs, client) + if r.key.client == client && Granted(r) then 1 else 0
  {
    assert (rs + [r])[..|rs|] == rs;
  }

  lemma {:induction false} CountUpdate(rs: seq<Request>, i: nat, r: Request, client: string)
    requires i < |rs| && r.key == rs[i].key && (Granted(rs[i]) ==> Granted(r))
    ensures CountGranted(rs[i := r], client)
            == CountGranted(rs, client) + if r.key.client == client && Granted(r) && !Granted(rs[i]) then 1 else 0
  {
    var n := |rs| - 1;
    if i == n {
      assert rs[i := r][..n] == rs[..n];
    } else {
      assert rs[i := r][..n] == rs[..n][i := r];
      CountUpdate(rs[..n], i, r, client);
    }
  }

  /** The limiter's grants to a client are its requests that were let through. */
  ghost predicate GrantsAreRequests(s: State) {
    forall c :: |ListOf(s.limits.grants, c)| == CountGranted(s.requests, c)
  }

  ghost predicate LimitsHold(cfg: Settings, s: State) {
    WellKept(s.limits, cfg.maxCalls, cfg.window, s.now)
  }

  lemma CheckKeepsLimits(cfg: Settings, s: State, i: nat, elapsed: real)
    requires LimitsHold(cfg, s) && i < |s.requests|
    ensures LimitsHold(cfg, CheckRate(cfg, s, i, elapsed))
  {
    hide WellKept, Allow;
    var s' := CheckRate(cfg, s, i, elapsed);
    WellKeptLater(s.limits, cfg.maxCalls, cfg.window, s.now, s'.now);
    AllowStaysWellKept(s.limits, cfg.maxCalls, cfg.window, s.requests[i].key.client, s'.now);
  }

  lemma AllowGrants(l: Limits, maxCalls: int, window: real, client: string, now: real)
    ensures var (l', ok) := Allow(l, maxCalls, window, client, now);
            l'.grants == if ok then l.grants[client := ListOf(l.grants, client) + [now]] else l.grants
  {
    hide After;
  }

  lemma CheckCountsGrants(cfg: Settings, s: State, i: nat, elapsed: real)
    requires GrantsAreRequests(s) && i < |s.requests| && s.requests[i].phase.Missed?
    ensures GrantsAreRequests(CheckRate(cfg, s, i, elapsed))
  {
    hide Allow, CountGranted;
    var s' := CheckRate(cfg, s, i, elapsed);
    AllowGrants(s.limits, cfg.maxCalls, cfg.window, s.requests[i].key.client, s'.now);
    forall c ensures |ListOf(s'.limits.grants, c)| == CountGranted(s'.requests, c) {
      assert |ListOf(s.limits.grants, c)| == CountGranted(s.requests, c);
      CountUpdate(s.requests, i, s'.requests[i], c);
    }
  }

  lemma StepKeepsLimits(cfg: Settings, s: State, a: Action)
    requires LimitsHold(cfg, s) && GrantsAreRequests(s)
    ensures LimitsHold(cfg, Step(cfg, s, a)) && GrantsAreRequests(Step(cfg, s, a))
  {
    hide WellKept, Allow, CountGranted;
    var s' := Step(cfg, s, a);
    if a.Check? && a.i < |s.requests| && s.requests[a.i].phase.Missed? {
      CheckKeepsLimits(cfg, s, a.i, a.elapsed);
      CheckCountsGrants(cfg, s, a.i, a.elapsed);
    } else {
      forall c ensures CountGranted(s'.requests, c) == CountGranted(s.requests, c) {
        if a.Arrive? {
          CountAppend(s.requests, s'.requests[|s.requests|], c);
        } else if s'.requests != s.requests {
          CountUpdate(s.requests, a.i, s'.requests[a.i], c);
        }
      }
    }
  }

  lemma {:induction false} RunKeepsLimits(cfg: Settings, s: State, actions: seq<Action>)
    requires LimitsHold(cfg, s) && GrantsAreRequests(s)
    ensures LimitsHold(cfg, Run(cfg, s, actions)) && GrantsAreRequests(Run(cfg, s, actions))
    decreases |actions|
  {
    hide Step, LimitsHold, GrantsAreRequests;
    if actions != [] {
      StepKeepsLimits(cfg, s, actions[0]);
      RunKeepsLimits(cfg, Step(cfg, s, actions[0]), actions[1..]);
    }
  }

  /** In every interleaving the limiter's grants to a client are exactly its requests that were let through (replays
      are never among them), and any `k` windows hold at most `k * maxCalls` of them. */
  lemma AdmittedPerSpan(cfg: Settings, actions: seq<Action>, client: string, from: real, k: nat)
    requires cfg.maxCalls >= 1 && cfg.window >= 0.0
    ensures var s := Run(cfg, Init(), actions);
            && |ListOf(s.limits.grants, client)| == CountGranted(s.requests, client)
            && |Between(ListOf(s.limits.grants, client), from, from + k as real * cfg.window)| <= k * cfg.maxCalls
  {
    hide Step, Between, CountGranted;
    EmptyIsSound(cfg);
    RunKeepsLimits(cfg, Init(), actions);
    var s := Run(cfg, Init(), actions);
    assert Sound(ListOf(s.limits.grants, client), ListOf(s.limits.stored, client), cfg.maxCalls, cfg.window, s.now);
    GrantsPerSpan(ListOf(s.limits.grants, client), ListOf(s.limits.stored, client), cfg.maxCalls, cfg.window, s.now, from, k);
  }

  lemma EmptyIsSound(cfg: Settings)
    ensures LimitsHold(cfg, Init()) && GrantsAreRequests(Init())
  {
  }

  // ---- at most one run per key ----

  predicate Precedes(r: Request, r': Request) {
    r.phase.Replied? && !r'.phase.Arrived? && r.ended < r'.begun
  }

  /** Requests for this key that have begun do not overlap. */
  predicate OneAtATime(s: State, key: Key) {
    forall i, j :: 0 <= i < j < |s.requests| && s.requests[i].key == key && s.requests[j].key == key
                   && !s.requests[i].phase.Arrived? && !s.requests[j].phase.Arrived? ==>
      Precedes(s.requests[i], s.requests[j]) || Precedes(s.requests[j], s.requests[i])
  }

  lemma InitIsGood()
    ensures Inv(Init())
  {
  }

  /** In every interleaving, every cached response came from a completed run of that same key, and two completed runs
      of one key overlapped: each looked up before the other wrote. */
  lemma CompletedRunsOverlap(cfg: Settings, actions: seq<Action>, i: nat, j: nat)
    requires var s := Run(cfg, Init(), actions);
             i < |s.requests| && j < |s.requests| && i != j && s.requests[i].key == s.requests[j].key
             && Completed(s.requests[i]) && Completed(s.requests[j])
    ensures var s := Run(cfg, Init(), actions);
            s.requests[i].begun < s.requests[j].ended && s.requests[j].begun < s.requests[i].ended
  {
    hide Step;
    InitIsGood();
    RunKeepsInv(cfg, Init(), actions);
  }

  lemma CachedCameFromTheKey(cfg: Settings, actions: seq<Action>, key: Key)
    requires key in Run(cfg, Init(), actions).cache
    ensures var s := Run(cfg, Init(), actions);
            && ProducedBy(s.requests, key, s.cache[key])
            && s.cache[key].ticketId == key.ticket
  {
    hide Step, MissesPrecedeWrites, ReplaysAreProduced, CompletedIsCached;
    InitIsGood();
    RunKeepsInv(cfg, Init(), actions);
  }

  /** When the requests of a key do not overlap, at most one of them runs to completion, and every answer given for the
      key, fresh or replayed, is that run's response. */
  lemma OneRunPerKey(cfg: Settings, actions: seq<Action>, key: Key, i: nat, j: nat)
    requires var s := Run(cfg, Init(), actions);
             OneAtATime(s, key) && i < |s.requests| && j < |s.requests| && s.requests[i].key == s.requests[j].key == key
    ensures var s := Run(cfg, Init(), actions);
            && (Completed(s.requests[i]) && Completed(s.requests[j]) ==> i == j)
            && ((Completed(s.requests[i]) || Replayed(s.requests[i])) && (Completed(s.requests[j]) || Replayed(s.requests[j])) ==>
                  s.requests[i].phase.reply.response == s.requests[j].phase.reply.response)
            && (Replayed(s.requests[i]) ==> !s.requests[i].asked)
  {
    hide Step, CompletedIsCached, CacheIsProduced, TicksArePast;
    InitIsGood();
    RunKeepsInv(cfg, Init(), actions);
    var s := Run(cfg, Init(), actions);
    forall a, b | 0 <= a < |s.requests| && 0 <= b < |s.requests| && s.requests[a].key == key && s.requests[b].key == key
                  && Completed(s.requests[a]) && Completed(s.requests[b])
      ensures a == b
    {
    }
  }

  lemma {:induction false} RunAppend(cfg: Settings, s: State, xs: seq<Action>, ys: seq<Action>)
    ensures Run(cfg, s, xs + ys) == Run(cfg, Run(cfg, s, xs), ys)
    decreases |xs|
  {
    hide Step;
    if xs == [] {
      assert xs + ys == ys;
    } else {
      assert (xs + ys)[1..] == xs[1..] + ys;
      RunAppend(cfg, Step(cfg, s, xs[0]), xs[1..], ys);
    }
  }

  lemma RunPair(cfg: Settings, s: State, a: Action, b: Action)
    ensures Run(cfg, s, [a, b]) == Step(cfg, Step(cfg, s, a), b)
  {
    hide Step;
    assert [a, b][1..] == [b] && [b][1..] == [];
    assert Run(cfg, Step(cfg, s, a), [b]) == Run(cfg, Step(cfg, Step(cfg, s, a), b), []);
  }

  /** Both requests, at one time and with these phases. */
  predicate Pair(s: State, key: Key, p: Phase, q: Phase) {
    |s.requests| == 2 && s.requests[0].key == key && s.requests[0].phase == p && s.requests[1].key == key && s.requests[1].phase == q
  }

  lemma BothMiss(cfg: Settings, key: Key)
    ensures var s := Run(cfg, Run(cfg, Init(), [Arrive(key), Arrive(key)]), [Lookup(0), Lookup(1)]);
            Pair(s, key, Missed, Missed) && s.cache == map[] && s.limits == Limits(map[], map[])
  {
    hide Run;
    RunPair(cfg, Init(), Arrive(key), Arrive(key));
    RunPair(cfg, Run(cfg, Init(), [Arrive(key), Arrive(key)]), Lookup(0), Lookup(1));
  }

  lemma BothAdmitted(cfg: Settings, s: State, key: Key)
    requires cfg.maxCalls >= 2 && Pair(s, key, Missed, Missed) && s.limits.stored == map[]
    ensures var t := Run(cfg, s, [Check(0, 0.0), Check(1, 0.0)]); Pair(t, key, Admitted, Admitted) && t.cache == s.cache
  {
    hide Run;
    RunPair(cfg, s, Check(0, 0.0), Check(1, 0.0));
  }

  lemma BothFinish(cfg: Settings, s: State, key: Key, first: Outcome, second: Outcome)
    requires Pair(s, key, Admitted, Admitted)
    ensures var t := Run(cfg, s, [Finish(0, Some(first)), Finish(1, Some(second))]);
            Pair(t, key, Ran(Response(key.ticket, first)), Ran(Response(key.ticket, second))) && t.cache == s.cache
  {
    hide Run;
    RunPair(cfg, s, Finish(0, Some(first)), Finish(1, Some(second)));
  }

  lemma BothStore(cfg: Settings, s: State, key: Key, first: Response, second: Response)
    requires Pair(s, key, Ran(first), Ran(second))
    ensures var t := Run(cfg, s, [Store(0), Store(1)]);
            Pair(t, key, Replied(Answer(first, false)), Replied(Answer(second, false))) && t.cache == s.cache[key := second]
  {
    hide Run;
    RunPair(cfg, s, Store(0), Store(1));
  }

  /** The lookup and the write are separate sections: two overlapping requests of one key both run to completion, and
      the second write replaces the first response. */
  lemma OverlappingRequestsRunTwice(cfg: Settings, key: Key, first: Outcome, second: Outcome)
    requires cfg.maxCalls >= 2
    ensures var s := Run(cfg, Init(), [Arrive(key), Arrive(key)] + [Lookup(0), Lookup(1)] + [Check(0, 0.0), Check(1, 0.0)]
                                      + [Finish(0, Some(first)), Finish(1, Some(second))] + [Store(0), Store(1)]);
            && Pair(s, key, Replied(Answer(Response(key.ticket, first), false)),
                    Replied(Answer(Response(key.ticket, second), false)))
            && s.cache == map[key := Response(key.ticket, second)]
  {
    hide Run, Step, Pair;
    var a, b, c := [Arrive(key), Arrive(key)], [Lookup(0), Lookup(1)], [Check(0, 0.0), Check(1, 0.0)];
    var d, e := [Finish(0, Some(first)), Finish(1, Some(second))], [Store(0), Store(1)];
    RunAppend(cfg, Init(), a + b + c + d, e);
    RunAppend(cfg, Init(), a + b + c, d);
    RunAppend(cfg, Init(), a + b, c);
    RunAppend(cfg, Init(), a, b);
    BothMiss(cfg, key);
    var missed := Run(cfg, Init(), a + b);
    BothAdmitted(cfg, missed, key);
    BothFinish(cfg, Run(cfg, missed, c), key, first, second);
    BothStore(cfg, Run(cfg, Run(cfg, missed, c), d), key, Response(key.ticket, first), Response(key.ticket, second));
  }
}
