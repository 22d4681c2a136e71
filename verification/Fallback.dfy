/** Concurrent gateway calls over several providers (src/core/llm_client.py): every call walks its own list, and the locked
    sections of all calls interleave in any order under one clock. */
module Fallback {
  import opened Values
  import opened Breaker
  import Limiter
  import Windows
  import Callers

  /** The settings of each provider. */
  type Settings = string -> Callers.Settings

  /** One visited provider: when the call asked it and how many outcomes were known then; unless it was skipped, the
      attempt is entry `record` of the provider's history. */
  datatype Visit = Visit(provider: string, time: real, known: nat, skipped: bool, record: nat, reply: Option<string>)

  datatype Outcome = Reply(content: string) | NoProvider | Exhausted

  /** The attempt a call has under way. */
  datatype Slot = Slot(caller: nat, time: real, known: nat)

  datatype Call = Call(list: seq<string>, visits: seq<Visit>, slot: Option<Slot>, outcome: Option<Outcome>)

  datatype State = State(providers: map<string, Callers.State>, calls: seq<Call>, now: real)

  datatype Action =
    | Begin(list: seq<string>)
    | Ask(c: nat, elapsed: real)
    | Acquire(c: nat, elapsed: real)
    | Wake(provider: string, elapsed: real)
    | Report(c: nat, reply: Option<string>, elapsed: real)

  const INIT := State(map[], [], 0.0)

  /** The provider as the one clock shows it. */
  function At(s: State, p: string): Callers.State {
    (if p in s.providers then s.providers[p] else Callers.INIT).(now := s.now)
  }

  function Move(cfg: Settings, s: State, p: string, a: Callers.Action): State {
    var next := Callers.Step(cfg(p), At(s, p), a);
    s.(providers := s.providers[p := next], now := next.now)
  }

  /** The call has dealt with one more provider. */
  function Visited(call: Call, v: Visit): Call {
    call.(visits := call.visits + [v], slot := None,
          outcome := if v.reply.Some? then Some(Reply(v.reply.value))
                     else if |call.visits| + 1 >= |call.list| then Some(Exhausted) else None)
  }

  /** The call is between two providers. */
  predicate Idle(call: Call) {
    call.slot.None? && call.outcome.None? && |call.visits| < |call.list|
  }

  predicate Busy(call: Call) {
    call.slot.Some? && call.outcome.None? && |call.visits| < |call.list|
  }

  function Current(call: Call): string
    requires |call.visits| < |call.list|
  {
    call.list[|call.visits|]
  }

  function AskProvider(cfg: Settings, s: State, c: nat, elapsed: real): State
    requires c < |s.calls| && Idle(s.calls[c])
  {
    var call := s.calls[c];
    var p := Current(call);
    var n := |At(s, p).callers|;
    var t := Move(cfg, Move(cfg, s, p, Callers.Arrive), p, Callers.Ask(n, elapsed));
    var q := At(t, p);
    t.(calls := s.calls[c := if n < |q.callers| && q.callers[n].Skipped?
                             then Visited(call, Visit(p, t.now, |q.history|, true, 0, None))
                             else call.(slot := Some(Slot(n, t.now, |q.history|)))])
  }

  function ReportCall(cfg: Settings, s: State, c: nat, reply: Option<string>, elapsed: real): State
    requires c < |s.calls| && Busy(s.calls[c])
  {
    var call := s.calls[c];
    var p, z := Current(call), call.slot.value;
    var v := Visit(p, z.time, z.known, false, |At(s, p).history|, reply);
    Move(cfg, s, p, Callers.Report(z.caller, reply, elapsed)).(calls := s.calls[c := Visited(call, v)])
  }

  predicate MayReport(s: State, c: nat, reply: Option<string>) {
    && c < |s.calls| && Busy(s.calls[c])
    && Callers.MayReport(At(s, Current(s.calls[c])), s.calls[c].slot.value.caller, reply)
  }

  function Step(cfg: Settings, s: State, a: Action): State {
    match a
    case Begin(list) => s.(calls := s.calls + [Call(list, [], None, if list == [] then Some(NoProvider) else None)])
    case Ask(c, elapsed) => if c < |s.calls| && Idle(s.calls[c]) then AskProvider(cfg, s, c, elapsed) else s
    case Acquire(c, elapsed) =>
      if c < |s.calls| && Busy(s.calls[c]) then
        Move(cfg, s, Current(s.calls[c]), Callers.Acquire(s.calls[c].slot.value.caller, elapsed))
      else s
    case Wake(p, elapsed) => Move(cfg, s, p, Callers.Wake(elapsed))
    case Report(c, reply, elapsed) =>
      if MayReport(s, c, reply) then ReportCall(cfg, s, c, reply, elapsed) else s
  }

  function Run(cfg: Settings, s: State, actions: seq<Action>): State
    decreases |actions|
  {
    if actions == [] then s else Run(cfg, Step(cfg, s, actions[0]), actions[1..])
  }

  // ---- the providers under many calls ----

  predicate Holds(cfg: Callers.Settings, q: Callers.State) {
    Callers.LimiterHolds(cfg, q) && Callers.BreakerHolds(cfg, q) && |q.grants| == Callers.Requests(q.callers)
  }

  /** Every provider's limiter and breaker are sound. */
  ghost predicate ProvidersHold(cfg: Settings, s: State) {
    forall p :: Holds(cfg(p), At(s, p))
  }

  lemma HoldsLater(cfg: Callers.Settings, q: Callers.State, later: real)
    requires Holds(cfg, q) && q.now <= later
    ensures Holds(cfg, q.(now := later))
  {
    hide Limiter.Sound, Callers.Admissible, Callers.AdmittedAt, Callers.Requests;
    Limiter.SoundLater(q.grants, Callers.Listed(q), cfg.maxCalls, cfg.window, q.now, later);
    assert Callers.Listed(q.(now := later)) == Callers.Listed(q);
  }

  lemma StepHolds(cfg: Callers.Settings, q: Callers.State, a: Callers.Action)
    requires Holds(cfg, q)
    ensures Holds(cfg, Callers.Step(cfg, q, a)) && q.now <= Callers.Step(cfg, q, a).now
  {
    hide Callers.LimiterHolds, Callers.BreakerHolds, Callers.Requests, Callers.Step;
    Callers.StepKeepsLimiter(cfg, q, a);
    Callers.StepKeepsBreaker(cfg, q, a);
    Callers.StepCountsRequests(cfg, q, a);
    TimeGoesOn(cfg, q, a);
  }

  lemma TimeGoesOn(cfg: Callers.Settings, q: Callers.State, a: Callers.Action)
    ensures q.now <= Callers.Step(cfg, q, a).now
  {
    hide Open;
  }

  lemma MoveHolds(cfg: Settings, s: State, p: string, a: Callers.Action)
    requires ProvidersHold(cfg, s)
    ensures ProvidersHold(cfg, Move(cfg, s, p, a)) && s.now <= Move(cfg, s, p, a).now
  {
    hide Holds, Callers.Step;
    var t := Move(cfg, s, p, a);
    StepHolds(cfg(p), At(s, p), a);
    forall q ensures Holds(cfg(q), At(t, q)) {
      if q != p {
        HoldsLater(cfg(q), At(s, q), t.now);
        assert At(t, q) == At(s, q).(now := t.now);
      }
    }
  }

  lemma SameProviders(cfg: Settings, s: State, t: State)
    requires ProvidersHold(cfg, s) && t.providers == s.providers && t.now == s.now
    ensures ProvidersHold(cfg, t)
  {
    hide Holds;
    forall p ensures Holds(cfg(p), At(t, p)) { assert At(t, p) == At(s, p); }
  }

  lemma StepKeepsProviders(cfg: Settings, s: State, a: Action)
    requires ProvidersHold(cfg, s)
    ensures ProvidersHold(cfg, Step(cfg, s, a))
  {
    hide Holds, ProvidersHold, Move, Callers.MayReport;
    var t := Step(cfg, s, a);
    match a
    case Begin(_) => SameProviders(cfg, s, t);
    case Ask(c, elapsed) =>
      if c < |s.calls| && Idle(s.calls[c]) {
        var p := Current(s.calls[c]);
        MoveHolds(cfg, s, p, Callers.Arrive);
        var m := Move(cfg, s, p, Callers.Arrive);
        MoveHolds(cfg, m, p, Callers.Ask(|At(s, p).callers|, elapsed));
        SameProviders(cfg, Move(cfg, m, p, Callers.Ask(|At(s, p).callers|, elapsed)), t);
      }
    case Acquire(c, elapsed) =>
      if c < |s.calls| && Busy(s.calls[c]) {
        MoveHolds(cfg, s, Current(s.calls[c]), Callers.Acquire(s.calls[c].slot.value.caller, elapsed));
      }
    case Wake(p, elapsed) => MoveHolds(cfg, s, p, Callers.Wake(elapsed));
    case Report(c, reply, elapsed) =>
      if t != s {
        var m := Move(cfg, s, Current(s.calls[c]), Callers.Report(s.calls[c].slot.value.caller, reply, elapsed));
        MoveHolds(cfg, s, Current(s.calls[c]), Callers.Report(s.calls[c].slot.value.caller, reply, elapsed));
        SameProviders(cfg, m, t);
      }
  }

  lemma {:induction false} RunKeepsProviders(cfg: Settings, s: State, actions: seq<Action>)
    requires ProvidersHold(cfg, s)
    ensures ProvidersHold(cfg, Run(cfg, s, actions))
    decreases |actions|
  {
    hide Step, ProvidersHold;
    if actions != [] {
      StepKeepsProviders(cfg, s, actions[0]);
      RunKeepsProviders(cfg, Step(cfg, s, actions[0]), actions[1..]);
    }
  }

  lemma NothingYet(cfg: Settings)
    ensures ProvidersHold(cfg, INIT)
  {
    forall p ensures Holds(cfg(p), At(INIT, p)) { Callers.StartHolds(cfg(p)); Callers.NoOneHasAsked(cfg(p)); }
  }

  // ---- what every call keeps ----

  /** The history of a provider grows by outcomes reported from now on. */
  predicate Grows(q: Callers.State, q': Callers.State) {
    && q.now <= q'.now && |q.history| <= |q'.history| && q.history == q'.history[..|q.history|]
    && forall k :: |q.history| <= k < |q'.history| ==> q.now <= q'.history[k].end
  }

  /** The first `known` outcomes were reported by `time`, the others no earlier. */
  predicate KnownAt(q: Callers.State, known: nat, time: real) {
    && known <= |q.history| && time <= q.now
    && (forall k :: 0 <= k < known ==> q.history[k].end <= time)
    && (forall k :: known <= k < |q.history| ==> time <= q.history[k].end)
  }

  /** A visit was skipped exactly if the circuit was open when the call asked; otherwise its reply is the one on record. */
  predicate VisitFits(cfg: Callers.Settings, q: Callers.State, v: Visit) {
    && KnownAt(q, v.known, v.time)
    && (v.skipped <==> Open(q.history[..v.known], cfg.threshold, cfg.cooldown, v.time))
    && (v.skipped ==> v.reply.None?)
    && (!v.skipped ==> v.known <= v.record < |q.history| && q.history[v.record].start == v.time
                       && q.history[v.record].reply == v.reply)
  }

  predicate VisitsFit(cfg: Settings, s: State, call: Call) {
    && |call.visits| <= |call.list|
    && forall i :: 0 <= i < |call.visits| ==>
         call.visits[i].provider == call.list[i] && VisitFits(cfg(call.list[i]), At(s, call.list[i]), call.visits[i])
  }

  /** The outcome is the reply of the last visited provider, the first to give one; without one the whole list was visited
      in vain. */
  predicate Concluded(call: Call) {
    match call.outcome
    case None => |call.visits| < |call.list| && forall i :: 0 <= i < |call.visits| ==> call.visits[i].reply.None?
    case Some(Reply(content)) =>
      && call.slot.None? && call.visits != [] && call.visits[|call.visits| - 1].reply == Some(content)
      && forall i :: 0 <= i < |call.visits| - 1 ==> call.visits[i].reply.None?
    case Some(NoProvider) => call.slot.None? && call.list == []
    case Some(Exhausted) =>
      && call.slot.None? && call.list != [] && |call.visits| == |call.list|
      && forall i :: 0 <= i < |call.visits| ==> call.visits[i].reply.None?
  }

  /** The attempt under way was admitted on what the call knew. */
  predicate SlotFits(cfg: Callers.Settings, q: Callers.State, z: Slot) {
    && z.caller < |q.callers| && Callers.InFlight(q.callers[z.caller])
    && q.callers[z.caller].start == z.time && KnownAt(q, z.known, z.time)
    && !Open(q.history[..z.known], cfg.threshold, cfg.cooldown, z.time)
  }

  predicate CallFits(cfg: Settings, s: State, call: Call) {
    && VisitsFit(cfg, s, call) && Concluded(call)
    && (call.slot.Some? ==> |call.visits| < |call.list| && SlotFits(cfg(Current(call)), At(s, Current(call)), call.slot.value))
  }

  /** Two calls never share an attempt. */
  predicate Apart(a: Call, b: Call) {
    Busy(a) && Busy(b) && Current(a) == Current(b) ==> a.slot.value.caller != b.slot.value.caller
  }

  predicate CallsFit(cfg: Settings, s: State) {
    && (forall c :: 0 <= c < |s.calls| ==> CallFits(cfg, s, s.calls[c]))
    && (forall c, d :: 0 <= c < d < |s.calls| ==> Apart(s.calls[c], s.calls[d]))
  }

  /** What one section does to a provider: the history grows, and callers under way stay so unless they report. */
  lemma StepEffect(cfg: Callers.Settings, q: Callers.State, a: Callers.Action)
    ensures var q' := Callers.Step(cfg, q, a);
            && Grows(q, q') && |q.callers| <= |q'.callers|
            && (forall j :: 0 <= j < |q.callers| && Callers.InFlight(q.callers[j]) && !(a.Report? && a.i == j) ==>
                  Callers.InFlight(q'.callers[j]) && q'.callers[j].start == q.callers[j].start)
  {
    hide Open, Windows.After;
  }

  predicate SameCallers(q: Callers.State, q': Callers.State, except: nat) {
    && Grows(q, q') && |q.callers| <= |q'.callers|
    && forall j :: 0 <= j < |q.callers| && Callers.InFlight(q.callers[j]) && j != except ==>
         Callers.InFlight(q'.callers[j]) && q'.callers[j].start == q.callers[j].start
  }

  lemma KnownStays(q: Callers.State, q': Callers.State, known: nat, time: real)
    requires KnownAt(q, known, time) && Grows(q, q')
    ensures KnownAt(q', known, time) && q'.history[..known] == q.history[..known]
  {
  }

  lemma VisitStays(cfg: Callers.Settings, q: Callers.State, q': Callers.State, v: Visit)
    requires VisitFits(cfg, q, v) && Grows(q, q')
    ensures VisitFits(cfg, q', v)
  {
    hide Open;
    KnownStays(q, q', v.known, v.time);
    if !v.skipped { assert q'.history[v.record] == q.history[v.record]; }
  }

  lemma SlotStays(cfg: Callers.Settings, q: Callers.State, q': Callers.State, z: Slot, except: nat)
    requires SlotFits(cfg, q, z) && SameCallers(q, q', except) && z.caller != except
    ensures SlotFits(cfg, q', z)
  {
    hide Open;
    KnownStays(q, q', z.known, z.time);
  }

  /** A call that takes no part in a section still fits after it. */
  lemma CallStays(cfg: Settings, s: State, t: State, call: Call, p: string, except: nat)
    requires CallFits(cfg, s, call) && SameCallers(At(s, p), At(t, p), except)
    requires forall q :: q != p ==> Grows(At(s, q), At(t, q)) && At(t, q).callers == At(s, q).callers
    requires Busy(call) && Current(call) == p ==> call.slot.value.caller != except
    ensures CallFits(cfg, t, call)
  {
    hide VisitFits, SlotFits, At, SameCallers, Grows;
    forall i | 0 <= i < |call.visits|
      ensures VisitFits(cfg(call.list[i]), At(t, call.list[i]), call.visits[i])
    {
      if call.list[i] == p { PrefixOf(At(s, p), At(t, p), except); }
      VisitStays(cfg(call.list[i]), At(s, call.list[i]), At(t, call.list[i]), call.visits[i]);
    }
    if call.slot.Some? {
      var q := Current(call);
      if q == p { SlotStays(cfg(p), At(s, p), At(t, p), call.slot.value, except); }
      else { SlotOnlySees(cfg(q), At(s, q), At(t, q), call.slot.value); }
    }
  }

  lemma PrefixOf(q: Callers.State, q': Callers.State, except: nat)
    requires SameCallers(q, q', except)
    ensures Grows(q, q')
  {
  }

  lemma SlotOnlySees(cfg: Callers.Settings, q: Callers.State, q': Callers.State, z: Slot)
    requires Grows(q, q') && q'.callers == q.callers && SlotFits(cfg, q, z)
    ensures SlotFits(cfg, q', z)
  {
    hide Open;
    KnownStays(q, q', z.known, z.time);
  }

  lemma MoveEffect(cfg: Settings, s: State, p: string, a: Callers.Action)
    ensures var t := Move(cfg, s, p, a);
            && At(t, p) == Callers.Step(cfg(p), At(s, p), a) && t.calls == s.calls
            && (forall q :: q != p ==> Grows(At(s, q), At(t, q)) && At(t, q).callers == At(s, q).callers)
            && SameCallers(At(s, p), At(t, p), if a.Report? then a.i else |At(s, p).callers|)
  {
    hide Callers.Step;
    StepEffect(cfg(p), At(s, p), a);
  }

  lemma OnlyCallsDiffer(cfg: Settings, s: State, t: State, call: Call)
    requires CallFits(cfg, s, call) && t.providers == s.providers && t.now == s.now
    ensures CallFits(cfg, t, call)
  {
    hide VisitFits, SlotFits;
    assert forall p :: At(t, p) == At(s, p);
  }

  /** After one section every call fits, except the one whose attempt it reports. */
  lemma OthersFit(cfg: Settings, s: State, p: string, a: Callers.Action, call: Call)
    requires CallFits(cfg, s, call)
    requires a.Report? && Busy(call) && Current(call) == p ==> call.slot.value.caller != a.i
    ensures CallFits(cfg, Move(cfg, s, p, a), call)
  {
    hide At, Move, SameCallers, VisitsFit, Concluded;
    MoveEffect(cfg, s, p, a);
    CallStays(cfg, s, Move(cfg, s, p, a), call, p, if a.Report? then a.i else |At(s, p).callers|);
  }

  lemma AddVisit(cfg: Settings, s: State, call: Call, v: Visit)
    requires CallFits(cfg, s, call) && Idle(call) && v.provider == Current(call)
    requires VisitFits(cfg(Current(call)), At(s, Current(call)), v)
    ensures CallFits(cfg, s, Visited(call, v))
  {
    hide VisitFits, SlotFits, At;
  }

  lemma Replaced(cfg: Settings, s: State, calls: seq<Call>, c: nat, call: Call)
    requires c < |calls| && CallFits(cfg, s, call)
    requires forall d :: 0 <= d < |calls| && d != c ==> CallFits(cfg, s, calls[d]) && Apart(calls[d], call)
    requires forall d, e :: 0 <= d < e < |calls| ==> Apart(calls[d], calls[e])
    ensures CallsFit(cfg, s.(calls := calls[c := call]))
  {
    hide CallFits;
    var t := s.(calls := calls[c := call]);
    forall d | 0 <= d < |t.calls| ensures CallFits(cfg, t, t.calls[d]) { OnlyCallsDiffer(cfg, s, t, t.calls[d]); }
  }

  /** What the breaker answers the newest caller. */
  lemma Asked(cfg: Callers.Settings, q: Callers.State, elapsed: real)
    requires Callers.BreakerHolds(cfg, q)
    ensures var n := |q.callers|;
            var r := Callers.Step(cfg, Callers.Step(cfg, q, Callers.Arrive), Callers.Ask(n, elapsed));
            && r.history == q.history && |r.callers| == n + 1 && KnownAt(r, |r.history|, r.now)
            && (r.callers[n].Skipped? <==> Open(r.history, cfg.threshold, cfg.cooldown, r.now))
            && (!r.callers[n].Skipped? ==> r.callers[n] == Callers.Admitted(r.now, |r.history|))
  {
    hide Open, Callers.Admissible, Callers.AdmittedAt;
  }

  lemma BreakerOf(cfg: Settings, s: State, p: string)
    requires ProvidersHold(cfg, s)
    ensures Callers.BreakerHolds(cfg(p), At(s, p)) && Callers.LimiterHolds(cfg(p), At(s, p))
    ensures |At(s, p).grants| == Callers.Requests(At(s, p).callers)
  {
    hide Callers.BreakerHolds, Callers.LimiterHolds, Callers.Requests, At;
    assert Holds(cfg(p), At(s, p));
  }

  lemma NowIs(s: State, p: string)
    ensures At(s, p).now == s.now
  {
  }

  lemma FitsIn(cfg: Settings, s: State, c: nat)
    requires CallsFit(cfg, s) && c < |s.calls|
    ensures CallFits(cfg, s, s.calls[c])
  {
    hide CallFits;
  }

  lemma AllApart(cfg: Settings, s: State)
    requires CallsFit(cfg, s)
    ensures forall c, d :: 0 <= c < d < |s.calls| ==> Apart(s.calls[c], s.calls[d])
  {
    hide CallFits, Apart;
  }

  lemma SlotIsKnown(cfg: Settings, s: State, call: Call)
    requires CallFits(cfg, s, call) && Busy(call)
    ensures SlotFits(cfg(Current(call)), At(s, Current(call)), call.slot.value)
    ensures call.slot.value.caller < |At(s, Current(call)).callers|
  {
  }

  lemma Admitted(cfg: Settings, s: State, call: Call, z: Slot)
    requires CallFits(cfg, s, call) && Idle(call) && SlotFits(cfg(Current(call)), At(s, Current(call)), z)
    ensures CallFits(cfg, s, call.(slot := Some(z)))
  {
    hide VisitFits, SlotFits, At;
  }

  lemma SlotIsNew(cfg: Callers.Settings, q: Callers.State, n: nat)
    requires n < |q.callers| && q.callers[n] == Callers.Admitted(q.now, |q.history|)
    requires !Open(q.history, cfg.threshold, cfg.cooldown, q.now) && KnownAt(q, |q.history|, q.now)
    ensures SlotFits(cfg, q, Slot(n, q.now, |q.history|))
  {
    hide Open;
    assert q.history[..|q.history|] == q.history;
  }

  lemma AskKeepsCalls(cfg: Settings, s: State, c: nat, elapsed: real)
    requires ProvidersHold(cfg, s) && CallsFit(cfg, s) && c < |s.calls| && Idle(s.calls[c])
    ensures CallsFit(cfg, AskProvider(cfg, s, c, elapsed))
  {
    hide CallsFit, CallFits, VisitsFit, Concluded, SlotFits, Move, At, Open, Callers.Step;
    var call := s.calls[c];
    var p := Current(call);
    var n := |At(s, p).callers|;
    var m := Move(cfg, s, p, Callers.Arrive);
    var t := Move(cfg, m, p, Callers.Ask(n, elapsed));
    MoveEffect(cfg, s, p, Callers.Arrive);
    MoveEffect(cfg, m, p, Callers.Ask(n, elapsed));
    assert Callers.BreakerHolds(cfg(p), At(s, p)) by { BreakerOf(cfg, s, p); }
    Asked(cfg(p), At(s, p), elapsed);
    var q := At(t, p);
    assert q.now == t.now by { NowIs(t, p); }
    var next := AskProvider(cfg, s, c, elapsed).calls[c];
    forall d | 0 <= d < |s.calls| ensures CallFits(cfg, t, s.calls[d]) {
      FitsIn(cfg, s, d);
      OthersFit(cfg, s, p, Callers.Arrive, s.calls[d]);
      OthersFit(cfg, m, p, Callers.Ask(n, elapsed), s.calls[d]);
    }
    assert q.history[..|q.history|] == q.history;
    if q.callers[n].Skipped? {
      AddVisit(cfg, t, call, Visit(p, t.now, |q.history|, true, 0, None));
    } else {
      assert SlotFits(cfg(p), q, Slot(n, t.now, |q.history|)) by { SlotIsNew(cfg(p), q, n); }
      Admitted(cfg, t, call, Slot(n, t.now, |q.history|));
    }
    forall d | 0 <= d < |s.calls| && d != c ensures Apart(s.calls[d], next) {
      FitsIn(cfg, s, d);
      if Busy(s.calls[d]) { SlotIsKnown(cfg, s, s.calls[d]); }
    }
    AllApart(cfg, s);
    Replaced(cfg, t, s.calls, c, next);
  }

  lemma ReportKeepsCalls(cfg: Settings, s: State, c: nat, reply: Option<string>, elapsed: real)
    requires CallsFit(cfg, s) && MayReport(s, c, reply)
    ensures CallsFit(cfg, ReportCall(cfg, s, c, reply, elapsed))
  {
    hide CallsFit, CallFits, VisitsFit, Concluded, SlotFits, Move, At, Open, Callers.Step, Callers.MayReport;
    var call := s.calls[c];
    var p, z := Current(call), call.slot.value;
    var a := Callers.Report(z.caller, reply, elapsed);
    var t := Move(cfg, s, p, a);
    MoveEffect(cfg, s, p, a);
    FitsIn(cfg, s, c);
    SlotIsKnown(cfg, s, call);
    AllApart(cfg, s);
    forall d | 0 <= d < |s.calls| && d != c ensures CallFits(cfg, t, s.calls[d]) {
      FitsIn(cfg, s, d);
      OthersFit(cfg, s, p, a, s.calls[d]);
    }
    var idle := call.(slot := None);
    Released(cfg, s, call);
    OthersFit(cfg, s, p, a, idle);
    var v := Visit(p, z.time, z.known, false, |At(s, p).history|, reply);
    ReportFits(cfg(p), At(s, p), z, reply, elapsed);
    AddVisit(cfg, t, idle, v);
    assert Visited(idle, v) == Visited(call, v);
    Replaced(cfg, t, s.calls, c, Visited(call, v));
  }

  lemma Released(cfg: Settings, s: State, call: Call)
    requires CallFits(cfg, s, call) && Busy(call)
    ensures CallFits(cfg, s, call.(slot := None))
  {
    hide VisitFits, SlotFits, At;
  }

  lemma ReportFits(cfg: Callers.Settings, q: Callers.State, z: Slot, reply: Option<string>, elapsed: real)
    requires SlotFits(cfg, q, z) && Callers.MayReport(q, z.caller, reply)
    ensures VisitFits(cfg, Callers.Step(cfg, q, Callers.Report(z.caller, reply, elapsed)),
                      Visit(cfg.provider, z.time, z.known, false, |q.history|, reply))
  {
    hide Open;
    KnownStays(q, Callers.Step(cfg, q, Callers.Report(z.caller, reply, elapsed)), z.known, z.time);
  }

  lemma MoveKeepsCalls(cfg: Settings, s: State, p: string, a: Callers.Action)
    requires CallsFit(cfg, s) && !a.Report?
    ensures CallsFit(cfg, Move(cfg, s, p, a))
  {
    hide CallFits, Callers.Step;
    var t := Move(cfg, s, p, a);
    forall c | 0 <= c < |t.calls| ensures CallFits(cfg, t, t.calls[c]) { OthersFit(cfg, s, p, a, s.calls[c]); }
  }

  lemma BeginKeepsCalls(cfg: Settings, s: State, list: seq<string>)
    requires CallsFit(cfg, s)
    ensures CallsFit(cfg, Step(cfg, s, Begin(list)))
  {
    hide CallFits, At;
    var t := Step(cfg, s, Begin(list));
    forall c | 0 <= c < |t.calls| ensures CallFits(cfg, t, t.calls[c]) {
      if c < |s.calls| { OnlyCallsDiffer(cfg, s, t, s.calls[c]); } else { NewFits(cfg, t, list); }
    }
  }

  lemma NewFits(cfg: Settings, s: State, list: seq<string>)
    ensures CallFits(cfg, s, Call(list, [], None, if list == [] then Some(NoProvider) else None))
  {
  }

  lemma StepKeepsCalls(cfg: Settings, s: State, a: Action)
    requires ProvidersHold(cfg, s) && CallsFit(cfg, s)
    ensures CallsFit(cfg, Step(cfg, s, a))
  {
    hide CallsFit, ProvidersHold, Move, AskProvider, ReportCall, At, Callers.MayReport;
    match a
    case Begin(list) => BeginKeepsCalls(cfg, s, list);
    case Ask(c, elapsed) => if c < |s.calls| && Idle(s.calls[c]) { AskKeepsCalls(cfg, s, c, elapsed); }
    case Acquire(c, elapsed) =>
      if c < |s.calls| && Busy(s.calls[c]) {
        MoveKeepsCalls(cfg, s, Current(s.calls[c]), Callers.Acquire(s.calls[c].slot.value.caller, elapsed));
      }
    case Wake(p, elapsed) => MoveKeepsCalls(cfg, s, p, Callers.Wake(elapsed));
    case Report(c, reply, elapsed) =>
      if MayReport(s, c, reply) {
        ReportKeepsCalls(cfg, s, c, reply, elapsed);
      }
  }

  lemma {:induction false} RunKeepsCalls(cfg: Settings, s: State, actions: seq<Action>)
    requires ProvidersHold(cfg, s) && CallsFit(cfg, s)
    ensures CallsFit(cfg, Run(cfg, s, actions))
    decreases |actions|
  {
    hide Step, CallsFit, ProvidersHold;
    if actions != [] {
      StepKeepsProviders(cfg, s, actions[0]);
      StepKeepsCalls(cfg, s, actions[0]);
      RunKeepsCalls(cfg, Step(cfg, s, actions[0]), actions[1..]);
    }
  }

  // ---- what the calls can rely on ----

  /** The provider at place `i` of the list did not answer: its circuit was open on the outcomes reported by then, or the
      attempt on record failed. */
  predicate Declined(cfg: Settings, s: State, call: Call, i: nat)
    requires i < |call.list|
  {
    && i < |call.visits|
    && var p, v := call.list[i], call.visits[i];
    && KnownAt(At(s, p), v.known, v.time)
    && if v.skipped then Open(At(s, p).history[..v.known], cfg(p).threshold, cfg(p).cooldown, v.time)
       else v.record < |At(s, p).history| && At(s, p).history[v.record].reply.None?
  }

  /** The provider at place `i` was asked while its circuit was not open, and answered. */
  predicate Answers(cfg: Settings, s: State, call: Call, i: nat, content: string)
    requires i < |call.list|
  {
    && i < |call.visits|
    && var p, v := call.list[i], call.visits[i];
    && KnownAt(At(s, p), v.known, v.time) && v.record < |At(s, p).history|
    && !Open(At(s, p).history[..v.known], cfg(p).threshold, cfg(p).cooldown, v.time)
    && At(s, p).history[v.record].start == v.time && At(s, p).history[v.record].reply == Some(content)
  }

  /** However the sections of many calls interleave: a call that returns gives the answer of the first listed provider that
      did not decline, and it fails exactly when the list is empty or every listed provider declined. */
  lemma FirstWillingAnswers(cfg: Settings, actions: seq<Action>, c: nat)
    requires c < |Run(cfg, INIT, actions).calls|
    ensures var s := Run(cfg, INIT, actions);
            var call := s.calls[c];
            match call.outcome
            case None => |call.visits| < |call.list| && forall i :: 0 <= i < |call.visits| ==> Declined(cfg, s, call, i)
            case Some(NoProvider) => call.list == []
            case Some(Exhausted) => call.list != [] && forall i :: 0 <= i < |call.list| ==> Declined(cfg, s, call, i)
            case Some(Reply(content)) =>
              && var k := |call.visits| - 1;
              && 0 <= k < |call.list| && Answers(cfg, s, call, k, content)
              && forall i :: 0 <= i < k ==> Declined(cfg, s, call, i)
  {
    hide Run, CallsFit, ProvidersHold, At, Open, KnownAt;
    var s := Run(cfg, INIT, actions);
    NothingYet(cfg);
    NoCallYet(cfg);
    RunKeepsCalls(cfg, INIT, actions);
    FitsIn(cfg, s, c);
  }

  lemma NoCallYet(cfg: Settings)
    ensures CallsFit(cfg, INIT)
  {
  }

  /** Each provider's promises survive all of this: its grants are its requests, at most `maxCalls` per window, and every
      attempt was admitted on the outcomes reported before it asked. */
  lemma EveryProviderIsKept(cfg: Settings, actions: seq<Action>, p: string, from: real, k: nat)
    requires cfg(p).maxCalls >= 1 && cfg(p).window >= 0.0
    ensures var q := At(Run(cfg, INIT, actions), p);
            && |q.grants| == Callers.Requests(q.callers)
            && |Windows.Between(q.grants, from, from + k as real * cfg(p).window)| <= k * cfg(p).maxCalls
            && Callers.Admissible(cfg(p), q.history, q.seen)
  {
    hide Run, ProvidersHold, At, Callers.LimiterHolds, Callers.Requests, Windows.Between, Callers.Admissible;
    NothingYet(cfg);
    RunKeepsProviders(cfg, INIT, actions);
    BreakerOf(cfg, Run(cfg, INIT, actions), p);
    Callers.StateKeepsSpan(cfg(p), At(Run(cfg, INIT, actions), p), from, k);
  }
}
