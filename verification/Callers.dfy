/** Concurrent callers of one provider (src/core/llm_client.py): the locked sections of breaker and limiter, interleaved in
    any order. The limiter keeps its lock while it sleeps; the breaker's check hands out no token. */
module Callers {
  import opened Values
  import opened Windows
  import opened Limiter
  import opened Breaker

  datatype Settings = Settings(provider: string, threshold: nat, cooldown: real, maxCalls: int, window: real)

  /** `seen` is the number of outcomes reported when the caller asked the breaker. */
  datatype Phase =
    | Arrived
    | Skipped
    | Admitted(start: real, seen: nat)
    | Granted(start: real, seen: nat, at: real)
    | Reported(granted: bool)

  /** A caller asleep inside the limiter, and the entry it removed, which says when it wakes. */
  datatype Sleeper = Sleeper(caller: nat, oldest: real)

  function WakeTime(cfg: Settings, z: Sleeper): real {
    z.oldest + cfg.window + 0.05
  }

  /** `history` has the attempts in the order of their reports, `seen` what each of them knew; `grants` is all the limiter
      ever granted, `stored` its list. */
  datatype State = State(callers: seq<Phase>, history: seq<Attempt>, seen: seq<nat>, grants: seq<real>, stored: seq<real>,
                         asleep: Option<Sleeper>, now: real)

  datatype Action =
    | Arrive
    | Ask(i: nat, elapsed: real)
    | Acquire(i: nat, elapsed: real)
    | Wake(elapsed: real)
    | Report(i: nat, reply: Option<string>, elapsed: real)

  const INIT := State([], [], [], [], [], None, 0.0)

  function Later(now: real, elapsed: real): (r: real)
    ensures r >= now
  {
    if elapsed > 0.0 then now + elapsed else now
  }

  function AskBreaker(cfg: Settings, s: State, i: nat, now: real): State
    requires i < |s.callers|
  {
    s.(now := now, callers := s.callers[i := if Open(s.history, cfg.threshold, cfg.cooldown, now) then Skipped
                                             else Admitted(now, |s.history|)])
  }

  function Grant(s: State, i: nat, kept: seq<real>, now: real): State
    requires i < |s.callers| && s.callers[i].Admitted?
  {
    var c := s.callers[i];
    s.(now := now, grants := s.grants + [now], stored := kept + [now], asleep := None,
       callers := s.callers[i := Granted(c.start, c.seen, now)])
  }

  /** The limiter with its lock taken: grant, fail on an empty list, or fall asleep holding the lock. */
  function EnterLimiter(cfg: Settings, s: State, i: nat, now: real): State
    requires i < |s.callers| && s.callers[i].Admitted?
  {
    var kept := After(s.stored, now - cfg.window);
    if |kept| < cfg.maxCalls then Grant(s, i, kept, now)
    else if kept == [] then s.(now := now, stored := kept)
    else s.(now := now, stored := kept[1..], asleep := Some(Sleeper(i, kept[0])))
  }

  function ReportOutcome(cfg: Settings, s: State, i: nat, reply: Option<string>, now: real): State
    requires i < |s.callers| && (s.callers[i].Admitted? || s.callers[i].Granted?)
  {
    var c := s.callers[i];
    var a := Attempt(cfg.provider, "", c.start, if c.Granted? then Some(c.at) else None, now, reply);
    s.(now := now, history := s.history + [a], seen := s.seen + [c.seen], callers := s.callers[i := Reported(c.Granted?)])
  }

  predicate IsAsleep(s: State, i: nat) {
    s.asleep.Some? && s.asleep.value.caller == i
  }

  /** An attempt that got no grant can only report a failure. */
  predicate MayReport(s: State, i: nat, reply: Option<string>) {
    i < |s.callers| && (s.callers[i].Granted? || (s.callers[i].Admitted? && !IsAsleep(s, i) && reply.None?))
  }

  /** One locked section; one that does not fit does nothing. */
  function Step(cfg: Settings, s: State, a: Action): State {
    match a
    case Arrive => s.(callers := s.callers + [Arrived])
    case Ask(i, elapsed) =>
      if i < |s.callers| && s.callers[i].Arrived? then AskBreaker(cfg, s, i, Later(s.now, elapsed)) else s
    case Acquire(i, elapsed) =>
      if i < |s.callers| && s.callers[i].Admitted? && s.asleep.None? then EnterLimiter(cfg, s, i, Later(s.now, elapsed)) else s
    case Wake(elapsed) =>
      if s.asleep.Some? && s.asleep.value.caller < |s.callers| && s.callers[s.asleep.value.caller].Admitted? then
        var z := s.asleep.value;
        Grant(s, z.caller, s.stored, Later(if s.now < WakeTime(cfg, z) then WakeTime(cfg, z) else s.now, elapsed))
      else s
    case Report(i, reply, elapsed) =>
      if MayReport(s, i, reply) then ReportOutcome(cfg, s, i, reply, Later(s.now, elapsed)) else s
  }

  function Run(cfg: Settings, s: State, actions: seq<Action>): State
    decreases |actions|
  {
    if actions == [] then s else Run(cfg, Step(cfg, s, actions[0]), actions[1..])
  }

  // ---- the limiter under interleaving ----

  /** The limiter's list, with the entry a sleeper has taken out put back. */
  function Listed(s: State): seq<real> {
    if s.asleep.Some? then [s.asleep.value.oldest] + s.stored else s.stored
  }

  predicate LimiterHolds(cfg: Settings, s: State) {
    Sound(s.grants, Listed(s), cfg.maxCalls, cfg.window, s.now)
  }

  lemma EnterKeepsLimiter(cfg: Settings, s: State, i: nat, now: real)
    requires i < |s.callers| && s.callers[i].Admitted? && s.asleep.None? && LimiterHolds(cfg, s) && s.now <= now
    ensures LimiterHolds(cfg, EnterLimiter(cfg, s, i, now))
  {
    hide Sound, After, Spaced, InOrder;
    SoundLater(s.grants, s.stored, cfg.maxCalls, cfg.window, s.now, now);
    PruneIsExact(s.grants, s.stored, cfg.maxCalls, cfg.window, now);
    var kept := After(s.stored, now - cfg.window);
    if |kept| < cfg.maxCalls {
      GrantIsSound(s.grants, kept, cfg.maxCalls, cfg.window, now);
    } else if kept != [] {
      assert [kept[0]] + kept[1..] == kept;
    }
  }

  lemma WakeKeepsLimiter(cfg: Settings, s: State, now: real)
    requires s.asleep.Some? && s.asleep.value.caller < |s.callers| && s.callers[s.asleep.value.caller].Admitted?
    requires LimiterHolds(cfg, s) && s.now <= now && WakeTime(cfg, s.asleep.value) <= now
    ensures LimiterHolds(cfg, Grant(s, s.asleep.value.caller, s.stored, now))
  {
    hide Sound;
    var listed := Listed(s);
    assert listed[1..] == s.stored;
    PopIsSound(s.grants, listed, cfg.maxCalls, cfg.window, s.now, now);
    ListFits(s.grants, listed, cfg.maxCalls, cfg.window, s.now);
    GrantIsSound(s.grants, s.stored, cfg.maxCalls, cfg.window, now);
  }

  lemma ListFits(grants: seq<real>, listed: seq<real>, maxCalls: int, window: real, time: real)
    requires Sound(grants, listed, maxCalls, window, time) && listed != []
    ensures |listed| <= maxCalls
  {
  }

  lemma StepKeepsLimiter(cfg: Settings, s: State, a: Action)
    requires LimiterHolds(cfg, s)
    ensures LimiterHolds(cfg, Step(cfg, s, a))
  {
    hide Sound, EnterLimiter, Open;
    var s' := Step(cfg, s, a);
    match a
    case Arrive =>
    case Acquire(i, elapsed) =>
      if i < |s.callers| && s.callers[i].Admitted? && s.asleep.None? { EnterKeepsLimiter(cfg, s, i, Later(s.now, elapsed)); }
    case Wake(elapsed) => if s' != s { WakeKeepsLimiter(cfg, s, s'.now); }
    case _ => SoundLater(s.grants, Listed(s), cfg.maxCalls, cfg.window, s.now, s'.now);
  }

  lemma {:induction false} RunKeepsLimiter(cfg: Settings, s: State, actions: seq<Action>)
    requires LimiterHolds(cfg, s)
    ensures LimiterHolds(cfg, Run(cfg, s, actions))
    decreases |actions|
  {
    hide Step, LimiterHolds;
    if actions != [] {
      StepKeepsLimiter(cfg, s, actions[0]);
      RunKeepsLimiter(cfg, Step(cfg, s, actions[0]), actions[1..]);
    }
  }

  // ---- requests and grants ----

  predicate WasGranted(p: Phase) {
    p.Granted? || (p.Reported? && p.granted)
  }

  function Requests(callers: seq<Phase>): nat {
    if callers == [] then 0
    else Requests(callers[..|callers| - 1]) + if WasGranted(callers[|callers| - 1]) then 1 else 0
  }

  lemma RequestsAppend(callers: seq<Phase>, p: Phase)
    ensures Requests(callers + [p]) == Requests(callers) + if WasGranted(p) then 1 else 0
  {
    assert (callers + [p])[..|callers|] == callers;
  }

  lemma {:induction false} RequestsUpdate(callers: seq<Phase>, i: nat, p: Phase)
    requires i < |callers| && (WasGranted(callers[i]) ==> WasGranted(p))
    ensures Requests(callers[i := p]) == Requests(callers) + if WasGranted(p) && !WasGranted(callers[i]) then 1 else 0
  {
    var n := |callers| - 1;
    if i == n {
      assert callers[i := p][..n] == callers[..n];
    } else {
      assert callers[i := p][..n] == callers[..n][i := p];
      RequestsUpdate(callers[..n], i, p);
    }
  }

  lemma StepCountsRequests(cfg: Settings, s: State, a: Action)
    requires |s.grants| == Requests(s.callers)
    ensures |Step(cfg, s, a).grants| == Requests(Step(cfg, s, a).callers)
  {
    hide Open, After, Requests;
    var s' := Step(cfg, s, a);
    match a
    case Arrive => RequestsAppend(s.callers, Arrived);
    case Wake(_) => if s' != s { RequestsUpdate(s.callers, s.asleep.value.caller, s'.callers[s.asleep.value.caller]); }
    case Ask(i, _) => if i < |s.callers| { RequestsUpdate(s.callers, i, s'.callers[i]); }
    case Acquire(i, _) => if i < |s.callers| { RequestsUpdate(s.callers, i, s'.callers[i]); }
    case Report(i, _, _) => if i < |s.callers| { RequestsUpdate(s.callers, i, s'.callers[i]); }
  }

  lemma {:induction false} RunCountsRequests(cfg: Settings, s: State, actions: seq<Action>)
    requires |s.grants| == Requests(s.callers)
    ensures |Run(cfg, s, actions).grants| == Requests(Run(cfg, s, actions).callers)
    decreases |actions|
  {
    hide Step, Requests;
    if actions != [] {
      StepCountsRequests(cfg, s, actions[0]);
      RunCountsRequests(cfg, Step(cfg, s, actions[0]), actions[1..]);
    }
  }

  /** However the callers interleave, the grants are exactly their requests, and any half-open span of `k` windows holds at
      most `k * maxCalls` of them. */
  lemma RequestsPerSpan(cfg: Settings, actions: seq<Action>, from: real, k: nat)
    requires cfg.maxCalls >= 1 && cfg.window >= 0.0
    ensures var s := Run(cfg, INIT, actions);
            && |s.grants| == Requests(s.callers)
            && |Between(s.grants, from, from + k as real * cfg.window)| <= k * cfg.maxCalls
  {
    hide Run, Between, Requests, LimiterHolds;
    StartHolds(cfg);
    RunKeepsLimiter(cfg, INIT, actions);
    RunCountsRequests(cfg, INIT, actions);
    StateKeepsSpan(cfg, Run(cfg, INIT, actions), from, k);
  }

  lemma StateKeepsSpan(cfg: Settings, s: State, from: real, k: nat)
    requires LimiterHolds(cfg, s) && cfg.maxCalls >= 1 && cfg.window >= 0.0
    ensures |Between(s.grants, from, from + k as real * cfg.window)| <= k * cfg.maxCalls
  {
    hide Sound, Between;
    GrantsPerSpan(s.grants, Listed(s), cfg.maxCalls, cfg.window, s.now, from, k);
  }

  lemma StartHolds(cfg: Settings)
    ensures LimiterHolds(cfg, INIT) && |INIT.grants| == Requests(INIT.callers)
  {
  }

  // ---- every grant is one attempt's ----

  function One(p: Phase): multiset<real> {
    if p.Granted? then multiset{p.at} else multiset{}
  }

  /** When the requests under way were let through. */
  function UnderWay(callers: seq<Phase>): multiset<real> {
    if callers == [] then multiset{} else UnderWay(callers[..|callers| - 1]) + One(callers[|callers| - 1])
  }

  /** When the requests on record were let through. */
  function OnRecord(h: seq<Attempt>): multiset<real> {
    if h == [] then multiset{}
    else OnRecord(h[..|h| - 1]) + if h[|h| - 1].granted.Some? then multiset{h[|h| - 1].granted.value} else multiset{}
  }

  lemma UnderWayAppend(callers: seq<Phase>, p: Phase)
    ensures UnderWay(callers + [p]) == UnderWay(callers) + One(p)
  {
    assert (callers + [p])[..|callers|] == callers;
  }

  lemma OnRecordAppend(h: seq<Attempt>, a: Attempt)
    ensures OnRecord(h + [a]) == OnRecord(h) + if a.granted.Some? then multiset{a.granted.value} else multiset{}
  {
    assert (h + [a])[..|h|] == h;
  }

  lemma {:induction false} UnderWayUpdate(callers: seq<Phase>, i: nat, p: Phase)
    requires i < |callers|
    ensures UnderWay(callers[i := p]) + One(callers[i]) == UnderWay(callers) + One(p)
  {
    hide One;
    var n := |callers| - 1;
    if i == n {
      assert callers[i := p][..n] == callers[..n];
      Exchange(UnderWay(callers[..n]), One(p), One(callers[i]));
    } else {
      assert callers[i := p][..n] == callers[..n][i := p];
      UnderWayUpdate(callers[..n], i, p);
      Exchange(UnderWay(callers[..n][i := p]), One(callers[n]), One(callers[i]));
      Exchange(UnderWay(callers[..n]), One(callers[n]), One(p));
    }
  }

  lemma Exchange(a: multiset<real>, b: multiset<real>, c: multiset<real>)
    ensures (a + b) + c == (a + c) + b
  {
  }

  predicate GrantsAreUsed(s: State) {
    multiset(s.grants) == OnRecord(s.history) + UnderWay(s.callers)
  }

  lemma PlusNothing(m: multiset<real>)
    ensures m + multiset{} == m
  {
  }

  lemma GrantIsUsed(s: State, i: nat, kept: seq<real>, now: real)
    requires GrantsAreUsed(s) && i < |s.callers| && s.callers[i].Admitted?
    ensures GrantsAreUsed(Grant(s, i, kept, now))
  {
    hide OnRecord, UnderWay;
    var s' := Grant(s, i, kept, now);
    UnderWayUpdate(s.callers, i, s'.callers[i]);
    PlusNothing(UnderWay(s'.callers));
  }

  lemma ReportIsUsed(cfg: Settings, s: State, i: nat, reply: Option<string>, now: real)
    requires GrantsAreUsed(s) && i < |s.callers| && InFlight(s.callers[i])
    ensures GrantsAreUsed(ReportOutcome(cfg, s, i, reply, now))
  {
    hide OnRecord, UnderWay;
    var s' := ReportOutcome(cfg, s, i, reply, now);
    UnderWayUpdate(s.callers, i, s'.callers[i]);
    OnRecordAppend(s.history, s'.history[|s.history|]);
    PlusNothing(UnderWay(s.callers));
  }

  lemma AskUsesNothing(cfg: Settings, s: State, i: nat, now: real)
    requires GrantsAreUsed(s) && i < |s.callers| && s.callers[i].Arrived?
    ensures GrantsAreUsed(AskBreaker(cfg, s, i, now))
  {
    hide OnRecord, UnderWay, Open;
    var s' := AskBreaker(cfg, s, i, now);
    UnderWayUpdate(s.callers, i, s'.callers[i]);
    PlusNothing(UnderWay(s'.callers));
    PlusNothing(UnderWay(s.callers));
  }

  lemma StepUsesGrants(cfg: Settings, s: State, a: Action)
    requires GrantsAreUsed(s)
    ensures GrantsAreUsed(Step(cfg, s, a))
  {
    hide After, OnRecord, UnderWay, Grant, AskBreaker, ReportOutcome;
    match a
    case Arrive =>
      UnderWayAppend(s.callers, Arrived);
      PlusNothing(UnderWay(s.callers));
    case Ask(i, elapsed) =>
      if i < |s.callers| && s.callers[i].Arrived? { AskUsesNothing(cfg, s, i, Later(s.now, elapsed)); }
    case Acquire(i, elapsed) =>
      if i < |s.callers| && s.callers[i].Admitted? {
        GrantIsUsed(s, i, After(s.stored, Later(s.now, elapsed) - cfg.window), Later(s.now, elapsed));
      }
    case Wake(elapsed) =>
      var s' := Step(cfg, s, a);
      if s' != s {
        var z := s.asleep.value;
        GrantIsUsed(s, z.caller, s.stored, Later(if s.now < WakeTime(cfg, z) then WakeTime(cfg, z) else s.now, elapsed));
      }
    case Report(i, reply, elapsed) =>
      if MayReport(s, i, reply) { ReportIsUsed(cfg, s, i, reply, Later(s.now, elapsed)); }
  }

  lemma {:induction false} RunUsesGrants(cfg: Settings, s: State, actions: seq<Action>)
    requires GrantsAreUsed(s)
    ensures GrantsAreUsed(Run(cfg, s, actions))
    decreases |actions|
  {
    hide Step, GrantsAreUsed;
    if actions != [] {
      StepUsesGrants(cfg, s, actions[0]);
      RunUsesGrants(cfg, Step(cfg, s, actions[0]), actions[1..]);
    }
  }

  /** In every interleaving the grants are exactly the times at which the attempts on record and those under way were let
      through. */
  lemma EveryGrantIsUsedOnce(cfg: Settings, actions: seq<Action>)
    ensures var s := Run(cfg, INIT, actions); multiset(s.grants) == OnRecord(s.history) + UnderWay(s.callers)
  {
    assert multiset(INIT.grants) == multiset{};
    RunUsesGrants(cfg, INIT, actions);
  }

  // ---- how long a sleeper waits ----

  /** The sleeper waits for the slot of the grant `maxCalls` before its own. */
  predicate SleeperKnows(cfg: Settings, s: State) {
    s.asleep.Some? ==>
      1 <= cfg.maxCalls <= |s.grants| && s.asleep.value.oldest == s.grants[|s.grants| - cfg.maxCalls]
  }

  lemma EnterKnows(cfg: Settings, s: State, i: nat, now: real)
    requires i < |s.callers| && s.callers[i].Admitted? && s.asleep.None? && LimiterHolds(cfg, s) && s.now <= now
    ensures SleeperKnows(cfg, EnterLimiter(cfg, s, i, now))
  {
    hide After, Spaced, InOrder;
    SoundLater(s.grants, s.stored, cfg.maxCalls, cfg.window, s.now, now);
    PruneIsExact(s.grants, s.stored, cfg.maxCalls, cfg.window, now);
  }

  lemma StepKeepsKnowing(cfg: Settings, s: State, a: Action)
    requires LimiterHolds(cfg, s) && SleeperKnows(cfg, s)
    ensures SleeperKnows(cfg, Step(cfg, s, a))
  {
    hide EnterLimiter, Open, LimiterHolds;
    if a.Acquire? && a.i < |s.callers| && s.callers[a.i].Admitted? && s.asleep.None? {
      EnterKnows(cfg, s, a.i, Later(s.now, a.elapsed));
    }
  }

  lemma {:induction false} RunKeepsKnowing(cfg: Settings, s: State, actions: seq<Action>)
    requires LimiterHolds(cfg, s) && SleeperKnows(cfg, s)
    ensures SleeperKnows(cfg, Run(cfg, s, actions))
    decreases |actions|
  {
    hide Step, LimiterHolds, SleeperKnows;
    if actions != [] {
      StepKeepsLimiter(cfg, s, actions[0]);
      StepKeepsKnowing(cfg, s, actions[0]);
      RunKeepsKnowing(cfg, Step(cfg, s, actions[0]), actions[1..]);
    }
  }

  /** In every interleaving a caller that had to sleep is let through at least a window and 0.05 seconds after the grant
      `maxCalls` before it. */
  lemma SleepersWait(cfg: Settings, actions: seq<Action>, elapsed: real)
    ensures var s := Run(cfg, INIT, actions);
            var t := Step(cfg, s, Wake(elapsed));
            t.grants != s.grants ==>
              && 1 <= cfg.maxCalls <= |s.grants| && t.grants == s.grants + [t.now]
              && t.now >= s.grants[|s.grants| - cfg.maxCalls] + cfg.window + 0.05
  {
    hide Run, LimiterHolds;
    StartHolds(cfg);
    RunKeepsKnowing(cfg, INIT, actions);
  }

  // ---- the breaker under interleaving ----

  /** An attempt that began at `start` knowing the first `seen` reports: the circuit was not open then, those reports
      were made by then, and the others later. */
  predicate AdmittedAt(cfg: Settings, h: seq<Attempt>, seen: nat, start: real) {
    && seen <= |h| && !Open(h[..seen], cfg.threshold, cfg.cooldown, start)
    && (forall k :: 0 <= k < seen ==> h[k].end <= start)
    && (forall k :: seen <= k < |h| ==> start <= h[k].end)
  }

  /** Every attempt was admitted against the reports made before it asked. */
  predicate Admissible(cfg: Settings, h: seq<Attempt>, seen: seq<nat>) {
    |seen| == |h| && forall k :: 0 <= k < |h| ==> AdmittedAt(cfg, h[..k], seen[k], h[k].start)
  }

  predicate InFlight(p: Phase) {
    p.Admitted? || p.Granted?
  }

  predicate BreakerHolds(cfg: Settings, s: State) {
    && Admissible(cfg, s.history, s.seen)
    && (forall k :: 0 <= k < |s.history| ==> s.history[k].end <= s.now)
    && (forall i :: 0 <= i < |s.callers| && InFlight(s.callers[i]) ==>
          s.callers[i].start <= s.now && AdmittedAt(cfg, s.history, s.callers[i].seen, s.callers[i].start))
  }

  lemma ReportAdmitted(cfg: Settings, h: seq<Attempt>, a: Attempt, seen: nat, start: real)
    requires AdmittedAt(cfg, h, seen, start) && start <= a.end
    ensures AdmittedAt(cfg, h + [a], seen, start)
  {
    assert (h + [a])[..seen] == h[..seen];
  }

  lemma AdmissibleAppend(cfg: Settings, h: seq<Attempt>, seen: seq<nat>, a: Attempt, n: nat)
    requires Admissible(cfg, h, seen) && AdmittedAt(cfg, h, n, a.start)
    ensures Admissible(cfg, h + [a], seen + [n])
  {
    hide AdmittedAt;
    var h', seen' := h + [a], seen + [n];
    forall k | 0 <= k < |h'| ensures AdmittedAt(cfg, h'[..k], seen'[k], h'[k].start) {
      assert h'[..k] == h[..k];
      if k == |h| { assert h[..k] == h; }
    }
  }

  lemma AskKeepsBreaker(cfg: Settings, s: State, i: nat, now: real)
    requires BreakerHolds(cfg, s) && i < |s.callers| && s.now <= now
    ensures BreakerHolds(cfg, AskBreaker(cfg, s, i, now))
  {
    hide Open, Admissible;
    assert s.history[..|s.history|] == s.history;
  }

  lemma ReportKeepsBreaker(cfg: Settings, s: State, i: nat, reply: Option<string>, now: real)
    requires BreakerHolds(cfg, s) && i < |s.callers| && InFlight(s.callers[i]) && s.now <= now
    ensures BreakerHolds(cfg, ReportOutcome(cfg, s, i, reply, now))
  {
    hide Open, Admissible, AdmittedAt;
    var s' := ReportOutcome(cfg, s, i, reply, now);
    var a := s'.history[|s.history|];
    AdmissibleAppend(cfg, s.history, s.seen, a, s.callers[i].seen);
    forall j | 0 <= j < |s'.callers| && InFlight(s'.callers[j])
      ensures s'.callers[j].start <= now && AdmittedAt(cfg, s'.history, s'.callers[j].seen, s'.callers[j].start)
    {
      assert s'.callers[j] == s.callers[j];
      ReportAdmitted(cfg, s.history, a, s.callers[j].seen, s.callers[j].start);
    }
  }

  lemma StepKeepsBreaker(cfg: Settings, s: State, a: Action)
    requires BreakerHolds(cfg, s)
    ensures BreakerHolds(cfg, Step(cfg, s, a))
  {
    hide Open, Admissible, AdmittedAt, After, AskBreaker, ReportOutcome;
    match a
    case Ask(i, elapsed) =>
      if i < |s.callers| && s.callers[i].Arrived? { AskKeepsBreaker(cfg, s, i, Later(s.now, elapsed)); }
    case Report(i, reply, elapsed) =>
      if MayReport(s, i, reply) { ReportKeepsBreaker(cfg, s, i, reply, Later(s.now, elapsed)); }
    case _ =>
  }

  lemma {:induction false} RunKeepsBreaker(cfg: Settings, s: State, actions: seq<Action>)
    requires BreakerHolds(cfg, s)
    ensures BreakerHolds(cfg, Run(cfg, s, actions))
    decreases |actions|
  {
    hide Step, BreakerHolds;
    if actions != [] {
      StepKeepsBreaker(cfg, s, actions[0]);
      RunKeepsBreaker(cfg, Step(cfg, s, actions[0]), actions[1..]);
    }
  }

  /** The attempt had heard of every outcome reported before its own. */
  predicate UpToDate(h: seq<Attempt>, seen: seq<nat>, k: nat)
    requires k < |h| == |seen|
  {
    seen[k] == k
  }

  /** An attempt after `threshold` failures in a row keeps the pace exactly if it had heard of all of them. */
  lemma PacedWhenUpToDate(cfg: Settings, h: seq<Attempt>, seen: seq<nat>, k: nat)
    requires Admissible(cfg, h, seen) && cfg.threshold >= 1 && cfg.cooldown > 0.0
    requires 0 < k < |h| && Trailing(h[..k]) >= cfg.threshold
    ensures !Open(h[..k], cfg.threshold, cfg.cooldown, h[k].start) <==> UpToDate(h, seen, k)
    ensures UpToDate(h, seen, k) ==> h[k - 1].end <= h[k].start
    ensures !UpToDate(h, seen, k) ==> h[k].start <= h[k - 1].end
  {
    var before := h[..k];
    assert AdmittedAt(cfg, before, seen[k], h[k].start);
    assert before[k - 1] == h[k - 1];
    if seen[k] == k { assert before[..k] == before; }
  }

  /** In every interleaving the attempts keep the breaker's pace exactly if each one that follows `threshold` failures in
      a row asked after the last of them was reported. */
  lemma PacedExactly(cfg: Settings, actions: seq<Action>)
    requires cfg.threshold >= 1 && cfg.cooldown > 0.0
    ensures var s := Run(cfg, INIT, actions);
            && |s.seen| == |s.history|
            && (Paced(s.history, cfg.threshold, cfg.cooldown) <==>
                  forall k :: 0 < k < |s.history| && Trailing(s.history[..k]) >= cfg.threshold ==> UpToDate(s.history, s.seen, k))
  {
    hide Step, Trailing;
    NoOneHasAsked(cfg);
    RunKeepsBreaker(cfg, INIT, actions);
    var s := Run(cfg, INIT, actions);
    forall k | 0 < k < |s.history| && Trailing(s.history[..k]) >= cfg.threshold
      ensures !Open(s.history[..k], cfg.threshold, cfg.cooldown, s.history[k].start) <==> UpToDate(s.history, s.seen, k)
    {
      PacedWhenUpToDate(cfg, s.history, s.seen, k);
    }
  }

  /** The same by the clock: attempts keep the pace if each such one began after the last failure ended, and only if none
      began before. */
  lemma PacedByTheClock(cfg: Settings, actions: seq<Action>)
    requires cfg.threshold >= 1 && cfg.cooldown > 0.0
    ensures var h := Run(cfg, INIT, actions).history;
            && (Paced(h, cfg.threshold, cfg.cooldown) ==>
                  forall k :: 0 < k < |h| && Trailing(h[..k]) >= cfg.threshold ==> h[k - 1].end <= h[k].start)
            && ((forall k :: 0 < k < |h| && Trailing(h[..k]) >= cfg.threshold ==> h[k - 1].end < h[k].start) ==>
                  Paced(h, cfg.threshold, cfg.cooldown))
  {
    hide Step, Run, Trailing, Paced, AdmittedAt, Open, Admissible;
    NoOneHasAsked(cfg);
    RunKeepsBreaker(cfg, INIT, actions);
    PacedExactly(cfg, actions);
    var s := Run(cfg, INIT, actions);
    var h := s.history;
    if Paced(h, cfg.threshold, cfg.cooldown) {
      forall k | 0 < k < |h| && Trailing(h[..k]) >= cfg.threshold ensures h[k - 1].end <= h[k].start {
        PacedWhenUpToDate(cfg, h, s.seen, k);
      }
    }
    if forall k :: 0 < k < |h| && Trailing(h[..k]) >= cfg.threshold ==> h[k - 1].end < h[k].start {
      forall k | 0 < k < |h| && Trailing(h[..k]) >= cfg.threshold ensures UpToDate(h, s.seen, k) {
        PacedWhenUpToDate(cfg, h, s.seen, k);
      }
    }
  }

  lemma NoOneHasAsked(cfg: Settings)
    ensures BreakerHolds(cfg, INIT)
  {
  }

  // ---- two callers after a cooldown ----

  /** One caller whose request fails, with nobody else around. */
  function Failure(i: nat): seq<Action> {
    [Arrive, Ask(i, 0.0)] + [Acquire(i, 0.0), Report(i, None, 0.0)]
  }

  function Failures(n: nat): seq<Action> {
    if n == 0 then [] else Failures(n - 1) + Failure(n - 1)
  }

  /** Two callers that ask at the same moment, `elapsed` after the last action. */
  function Together(i: nat, elapsed: real): seq<Action> {
    [Arrive, Arrive] + ([Ask(i, elapsed), Ask(i + 1, 0.0)] +
    ([Acquire(i, 0.0), Acquire(i + 1, 0.0)] + [Report(i, None, 0.0), Report(i + 1, None, 0.0)]))
  }

  lemma {:induction false} RunAppend(cfg: Settings, s: State, xs: seq<Action>, ys: seq<Action>)
    ensures Run(cfg, s, xs + ys) == Run(cfg, Run(cfg, s, xs), ys)
    decreases |xs|
  {
    hide Step;
    if xs == [] {
      assert xs + ys == ys;
    } else {
      assert (xs + ys)[1..] == xs[1..] + ys;
      RunAppend(cfg, Step(cfg, s, xs[0]), xs[1..], ys);
    }
  }

  lemma RunPair(cfg: Settings, s: State, a: Action, b: Action)
    ensures Run(cfg, s, [a, b]) == Step(cfg, Step(cfg, s, a), b)
  {
    hide Step;
    assert [a, b][1..] == [b] && [b][1..] == [];
    assert Run(cfg, Step(cfg, s, a), [b]) == Run(cfg, Step(cfg, Step(cfg, s, a), b), []);
  }

  /** `n` callers have come one after the other at time 0 and have failed. */
  predicate Failed(s: State, n: nat) {
    && |s.callers| == n && |s.history| == n && s.now == 0.0 && s.asleep.None? && |s.stored| <= n
    && forall k :: 0 <= k < n ==> s.history[k].reply.None? && s.history[k].end == 0.0
  }

  lemma {:induction false} AllTrail(h: seq<Attempt>)
    requires forall k :: 0 <= k < |h| ==> h[k].reply.None?
    ensures Trailing(h) == |h|
  {
    if h != [] { AllTrail(h[..|h| - 1]); }
  }

  lemma FailOnce(cfg: Settings, s: State, n: nat)
    requires Failed(s, n) && n < cfg.threshold && n < cfg.maxCalls
    ensures Failed(Run(cfg, s, Failure(n)), n + 1)
  {
    hide Run, After, Trailing;
    RunAppend(cfg, s, [Arrive, Ask(n, 0.0)], [Acquire(n, 0.0), Report(n, None, 0.0)]);
    RunPair(cfg, s, Arrive, Ask(n, 0.0));
    AllTrail(s.history);
    var t := Run(cfg, s, [Arrive, Ask(n, 0.0)]);
    RunPair(cfg, t, Acquire(n, 0.0), Report(n, None, 0.0));
  }

  lemma {:induction false} FailOften(cfg: Settings, n: nat)
    requires n <= cfg.threshold && n <= cfg.maxCalls
    ensures Failed(Run(cfg, INIT, Failures(n)), n)
  {
    hide Step;
    if n > 0 {
      FailOften(cfg, n - 1);
      RunAppend(cfg, INIT, Failures(n - 1), Failure(n - 1));
      FailOnce(cfg, Run(cfg, INIT, Failures(n - 1)), n - 1);
    }
  }

  lemma BothAsk(cfg: Settings, s: State, n: nat)
    requires Failed(s, n) && n >= 1 && cfg.cooldown > 0.0
    ensures var t := Run(cfg, Run(cfg, s, [Arrive, Arrive]), [Ask(n, cfg.cooldown), Ask(n + 1, 0.0)]);
            && t == s.(callers := s.callers + [Admitted(cfg.cooldown, n), Admitted(cfg.cooldown, n)], now := cfg.cooldown)
  {
    hide Run, Trailing;
    RunPair(cfg, s, Arrive, Arrive);
    var t := Run(cfg, s, [Arrive, Arrive]);
    RunPair(cfg, t, Ask(n, cfg.cooldown), Ask(n + 1, 0.0));
  }

  lemma BothAcquire(cfg: Settings, s: State, n: nat, start: real)
    requires |s.callers| == n + 2 && s.callers[n] == s.callers[n + 1] == Admitted(start, n)
    requires s.asleep.None? && |s.stored| <= n && n + 2 <= cfg.maxCalls
    ensures var t := Run(cfg, s, [Acquire(n, 0.0), Acquire(n + 1, 0.0)]);
            && t.callers == s.callers[n := Granted(start, n, s.now)][n + 1 := Granted(start, n, s.now)]
            && t.history == s.history && t.seen == s.seen && t.now == s.now && t.asleep.None?
  {
    hide Run, After;
    RunPair(cfg, s, Acquire(n, 0.0), Acquire(n + 1, 0.0));
  }

  lemma BothReport(cfg: Settings, s: State, n: nat, start: real)
    requires |s.callers| == n + 2 && s.callers[n] == s.callers[n + 1] == Granted(start, n, s.now)
    ensures var t := Run(cfg, s, [Report(n, None, 0.0), Report(n + 1, None, 0.0)]);
            var a := Attempt(cfg.provider, "", start, Some(s.now), s.now, None);
            t.history == s.history + [a] + [a] && t.seen == s.seen + [n] + [n]
  {
    hide Run;
    RunPair(cfg, s, Report(n, None, 0.0), Report(n + 1, None, 0.0));
  }

  lemma TogetherRuns(cfg: Settings, s: State, n: nat)
    ensures Run(cfg, s, Together(n, cfg.cooldown)) ==
            Run(cfg, Run(cfg, Run(cfg, Run(cfg, s, [Arrive, Arrive]), [Ask(n, cfg.cooldown), Ask(n + 1, 0.0)]),
                         [Acquire(n, 0.0), Acquire(n + 1, 0.0)]), [Report(n, None, 0.0), Report(n + 1, None, 0.0)])
  {
    hide Run;
    var b, c := [Ask(n, cfg.cooldown), Ask(n + 1, 0.0)], [Acquire(n, 0.0), Acquire(n + 1, 0.0)];
    var d := [Report(n, None, 0.0), Report(n + 1, None, 0.0)];
    var s1 := Run(cfg, s, [Arrive, Arrive]);
    RunAppend(cfg, s, [Arrive, Arrive], b + (c + d));
    RunAppend(cfg, s1, b, c + d);
    RunAppend(cfg, Run(cfg, s1, b), c, d);
  }

  /** After `threshold` failures one after the other and one cooldown, two callers that ask together are both let through:
      both requests are sent, the second trial within the cooldown of the first. The circuit admits one trial per
      cooldown only to callers that take turns. */
  lemma HalfOpenAdmitsTwo(cfg: Settings)
    requires cfg.threshold >= 1 && cfg.cooldown > 0.0 && cfg.maxCalls >= cfg.threshold + 2
    ensures var n := cfg.threshold;
            var h := Run(cfg, INIT, Failures(n) + Together(n, cfg.cooldown)).history;
            && |h| == n + 2 && h[n].granted.Some? && h[n + 1].granted.Some?
            && !Open(h[..n], cfg.threshold, cfg.cooldown, h[n].start)
            && Trailing(h[..n + 1]) >= cfg.threshold && h[n + 1].start < h[n].end + cfg.cooldown
            && !Paced(h, cfg.threshold, cfg.cooldown)
  {
    hide Run, Step, Trailing, Failures, Together;
    var n := cfg.threshold;
    var s := Run(cfg, INIT, Failures(n));
    FailOften(cfg, n);
    RunAppend(cfg, INIT, Failures(n), Together(n, cfg.cooldown));
    TogetherRuns(cfg, s, n);
    BothAsk(cfg, s, n);
    var t := Run(cfg, Run(cfg, s, [Arrive, Arrive]), [Ask(n, cfg.cooldown), Ask(n + 1, 0.0)]);
    BothAcquire(cfg, t, n, cfg.cooldown);
    var u := Run(cfg, t, [Acquire(n, 0.0), Acquire(n + 1, 0.0)]);
    BothReport(cfg, u, n, cfg.cooldown);
    SecondTrialIsEarly(cfg, s.history, Attempt(cfg.provider, "", cfg.cooldown, Some(cfg.cooldown), cfg.cooldown, None));
  }

  lemma SecondTrialIsEarly(cfg: Settings, failed: seq<Attempt>, a: Attempt)
    requires cfg.threshold >= 1 && cfg.cooldown > 0.0 && |failed| == cfg.threshold && a.reply.None?
    requires forall k :: 0 <= k < |failed| ==> failed[k].reply.None? && failed[k].end == 0.0
    requires a.start == a.end == cfg.cooldown
    ensures var h, n := failed + [a] + [a], |failed|;
            && !Open(h[..n], cfg.threshold, cfg.cooldown, h[n].start)
            && Trailing(h[..n + 1]) >= cfg.threshold && !Paced(h, cfg.threshold, cfg.cooldown)
  {
    hide Trailing;
    var h, n := failed + [a] + [a], |failed|;
    assert h[..n] == failed && h[..n + 1] == failed + [a];
    AllTrail(failed + [a]);
    assert Open(h[..n + 1], cfg.threshold, cfg.cooldown, h[n + 1].start);
  }
}
