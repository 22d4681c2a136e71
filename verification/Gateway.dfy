/** The LLM gateway (src/core/llm_client.py): an ordered fallback list per role, one limiter and one breaker per
    provider shared by all roles. */
module Gateway {
  import opened Values
  import opened Windows
  import opened Clock
  import opened Limiter
  import opened Breaker

  const THRESHOLD: nat := 3
  const COOLDOWN: real := 60.0
  const WINDOW: real := 60.0

  datatype ProviderModel = ProviderModel(provider: string, model: string)

  /** Calls per minute, by provider. */
  datatype Settings = Settings(nimRpm: int, geminiRpm: int, ollamaRpm: int)

  datatype Outcome = Reply(content: string) | NoProvider | Exhausted

  /** What the call did with one provider: skipped it at time `at`, or tried it. */
  datatype Visit = Visit(provider: ProviderModel, at: real, attempt: Option<Attempt>)

  /** The outside world during one call: what the i-th listed provider sends back if asked, None for any exception. */
  type World = nat -> Option<string>

  /** The providers a client can be built for. */
  predicate Known(provider: string) {
    provider == "nim" || provider == "gemini" || provider == "ollama"
  }

  function Rpm(s: Settings, provider: string): int {
    if provider == "nim" then s.nimRpm else if provider == "gemini" then s.geminiRpm
    else if provider == "ollama" then s.ollamaRpm else 60
  }

  function Of(log: seq<Attempt>, provider: string): (r: seq<Attempt>)
    ensures forall k :: 0 <= k < |r| ==> r[k].provider == provider
  {
    if log == [] then []
    else Of(log[..|log| - 1], provider) + if log[|log| - 1].provider == provider then [log[|log| - 1]] else []
  }

  /** The times at which the limiter let an attempt through: the requests the provider saw. */
  function Grants(log: seq<Attempt>): seq<real> {
    if log == [] then []
    else Grants(log[..|log| - 1]) + if log[|log| - 1].granted.Some? then [log[|log| - 1].granted.value] else []
  }

  lemma OfAppend(log: seq<Attempt>, a: Attempt, provider: string)
    ensures Of(log + [a], provider) == Of(log, provider) + if a.provider == provider then [a] else []
  {
    assert (log + [a])[..|log|] == log;
  }

  lemma GrantsAppend(log: seq<Attempt>, a: Attempt)
    ensures Grants(log + [a]) == Grants(log) + if a.granted.Some? then [a.granted.value] else []
  {
    assert (log + [a])[..|log|] == log;
  }

  /** The attempts up to now follow one another. */
  predicate Timely(log: seq<Attempt>, time: real) {
    Sequential(log) && forall i :: 0 <= i < |log| ==> log[i].end <= time
  }

  lemma TimelyLater(log: seq<Attempt>, time: real, later: real)
    requires Timely(log, time) && time <= later
    ensures Timely(log, later)
  {
  }

  lemma TimelyAppend(log: seq<Attempt>, a: Attempt, before: real, time: real)
    requires Timely(log, before) && before <= a.start <= a.end <= time
    ensures Timely(log + [a], time)
  {
  }

  lemma {:induction false} OfIsTimely(log: seq<Attempt>, provider: string, time: real)
    requires Timely(log, time)
    ensures Timely(Of(log, provider), time)
  {
    if log != [] {
      var a := log[|log| - 1];
      var rest := log[..|log| - 1];
      assert Timely(rest, a.start);
      OfIsTimely(rest, provider, a.start);
      if a.provider == provider { TimelyAppend(Of(rest, provider), a, a.start, time); }
      else { assert Timely(Of(rest, provider), time); }
    }
  }

  // ---- what a call may do ----

  function AfterVisit(log: seq<Attempt>, v: Visit): seq<Attempt> {
    if v.attempt.Some? then log + [v.attempt.value] else log
  }

  function AfterVisits(log: seq<Attempt>, visits: seq<Visit>): seq<Attempt> {
    if visits == [] then log else AfterVisit(AfterVisits(log, visits[..|visits| - 1]), visits[|visits| - 1])
  }

  predicate Answered(v: Visit) {
    v.attempt.Some? && v.attempt.value.reply.Some?
  }

  /** A provider is skipped exactly when its circuit is open; otherwise it is tried, and the attempt brings back what
      the world says, unless no client or no slot can be had. */
  predicate Proper(log: seq<Attempt>, p: ProviderModel, v: Visit, settings: Settings, answer: Option<string>) {
    && v.provider == p
    && (v.attempt.None? <==> Open(Of(log, p.provider), THRESHOLD, COOLDOWN, v.at))
    && (v.attempt.Some? ==>
          var a := v.attempt.value;
          && a.provider == p.provider && a.model == p.model && a.start == v.at
          && (a.granted.Some? <==> Known(p.provider) && Rpm(settings, p.provider) >= 1)
          && a.reply == if a.granted.Some? then answer else None)
  }

  predicate AllProper(log: seq<Attempt>, ps: seq<ProviderModel>, visits: seq<Visit>, settings: Settings, world: World) {
    |visits| <= |ps| && forall i :: 0 <= i < |visits| ==> Proper(AfterVisits(log, visits[..i]), ps[i], visits[i], settings, world(i))
  }

  /** The answer is the reply of the first visited provider that gave one; the call fails exactly when the whole list
      was visited in vain. */
  predicate Concluded(ps: seq<ProviderModel>, visits: seq<Visit>, outcome: Outcome) {
    match outcome
    case Reply(content) =>
      && visits != [] && var last := visits[|visits| - 1];
      && last.attempt.Some? && last.attempt.value.reply == Some(content)
      && forall i :: 0 <= i < |visits| - 1 ==> !Answered(visits[i])
    case NoProvider => ps == [] && visits == []
    case Exhausted => ps != [] && |visits| == |ps| && forall i :: 0 <= i < |visits| ==> !Answered(visits[i])
  }

  lemma AllProperAppend(log: seq<Attempt>, ps: seq<ProviderModel>, visits: seq<Visit>, v: Visit, settings: Settings,
                        world: World)
    requires AllProper(log, ps, visits, settings, world) && |visits| < |ps|
    requires Proper(AfterVisits(log, visits), ps[|visits|], v, settings, world(|visits|))
    ensures AllProper(log, ps, visits + [v], settings, world)
    ensures AfterVisits(log, visits + [v]) == AfterVisit(AfterVisits(log, visits), v)
  {
    hide Proper;
    var vs := visits + [v];
    assert vs[..|visits|] == visits;
    forall i | 0 <= i < |vs| ensures Proper(AfterVisits(log, vs[..i]), ps[i], vs[i], settings, world(i)) {
      if i < |visits| { assert vs[..i] == visits[..i]; }
    }
  }

  lemma NoneVisited(log: seq<Attempt>, ps: seq<ProviderModel>, settings: Settings, world: World)
    ensures AllProper(log, ps, [], settings, world) && AfterVisits(log, []) == log
  {
  }

  /** The attempts and requests of every provider after one more attempt. */
  lemma LogGrows(log: seq<Attempt>, a: Attempt)
    ensures forall q :: Of(log + [a], q) == if q == a.provider then Of(log, q) + [a] else Of(log, q)
    ensures forall q :: Grants(Of(log + [a], q)) ==
              Grants(Of(log, q)) + (if q == a.provider && a.granted.Some? then [a.granted.value] else [])
  {
    forall q
      ensures Of(log + [a], q) == (if q == a.provider then Of(log, q) + [a] else Of(log, q))
      ensures Grants(Of(log + [a], q)) ==
              Grants(Of(log, q)) + (if q == a.provider && a.granted.Some? then [a.granted.value] else [])
    {
      OfAppend(log, a, q);
      GrantsAppend(Of(log, q), a);
    }
  }

  lemma LogStaysPaced(log: seq<Attempt>, a: Attempt)
    requires AllPaced(log)
    requires !Open(Of(log, a.provider), THRESHOLD, COOLDOWN, a.start)
    ensures AllPaced(log + [a])
  {
    hide Of, Paced;
    LogGrows(log, a);
    PacedAppend(Of(log, a.provider), a, THRESHOLD, COOLDOWN);
  }

  /** The provider could answer when its turn came: its circuit was closed, a client and a slot could be had, and it
      had a reply. */
  predicate Willing(log: seq<Attempt>, p: ProviderModel, at: real, settings: Settings, answer: Option<string>) {
    !Open(Of(log, p.provider), THRESHOLD, COOLDOWN, at) && Known(p.provider) && Rpm(settings, p.provider) >= 1 && answer.Some?
  }

  lemma AnsweredMeansWilling(log: seq<Attempt>, p: ProviderModel, v: Visit, settings: Settings, answer: Option<string>)
    requires Proper(log, p, v, settings, answer)
    ensures Answered(v) <==> Willing(log, p, v.at, settings, answer)
    ensures Answered(v) ==> v.attempt.value.reply == answer
  {
  }

  /** The call answers with the reply of the first willing provider, and fails exactly when none in the list was
      willing at its turn. */
  lemma FirstWillingAnswers(log: seq<Attempt>, ps: seq<ProviderModel>, visits: seq<Visit>, settings: Settings, world: World,
                            outcome: Outcome)
    requires AllProper(log, ps, visits, settings, world) && Concluded(ps, visits, outcome) && ps != []
    ensures var n := |visits| - 1;
            && (forall i :: 0 <= i < n ==> !Willing(AfterVisits(log, visits[..i]), ps[i], visits[i].at, settings, world(i)))
            && (outcome.Exhausted? <==> visits == [] || !Willing(AfterVisits(log, visits[..n]), ps[n], visits[n].at, settings, world(n)))
            && (outcome.Exhausted? ==> |visits| == |ps|)
            && (outcome.Reply? ==> world(n) == Some(outcome.content))
  {
    hide Proper, Willing;
    forall i | 0 <= i < |visits|
      ensures Answered(visits[i]) <==> Willing(AfterVisits(log, visits[..i]), ps[i], visits[i].at, settings, world(i))
      ensures Answered(visits[i]) ==> visits[i].attempt.value.reply == world(i)
    {
      assert Proper(AfterVisits(log, visits[..i]), ps[i], visits[i], settings, world(i));
      AnsweredMeansWilling(AfterVisits(log, visits[..i]), ps[i], visits[i], settings, world(i));
    }
  }

  // ---- guarantees over all calls ----

  ghost predicate AllPaced(log: seq<Attempt>) {
    forall p :: Paced(Of(log, p), THRESHOLD, COOLDOWN)
  }

  /** No provider is tried while its circuit is open, and the requests to it keep its pace. */
  ghost predicate Disciplined(log: seq<Attempt>, settings: Settings) {
    && AllPaced(log)
    && (forall p :: InOrder(Grants(Of(log, p))))
    && (forall p :: Rpm(settings, p) >= 1 ==> Spaced(Grants(Of(log, p)), Rpm(settings, p), WINDOW))
    && (forall p :: Rpm(settings, p) < 1 ==> Grants(Of(log, p)) == [])
  }

  /** The provider sees at most `rpm` requests per minute, over any number `k` of minutes. */
  predicate MinuteBudget(log: seq<Attempt>, provider: string, rpm: int, from: real, k: nat) {
    |Between(Grants(Of(log, provider)), from, from + k as real * 60.0)| <= if rpm < 0 then 0 else k * rpm
  }

  lemma KeepsBudget(log: seq<Attempt>, settings: Settings, provider: string, from: real, k: nat)
    requires Disciplined(log, settings)
    ensures MinuteBudget(log, provider, Rpm(settings, provider), from, k)
  {
    hide Of, Grants, InOrder, Spaced, Paced, Rpm;
    var rpm := Rpm(settings, provider);
    if rpm >= 1 { hide Between; SpanBound(Grants(Of(log, provider)), rpm, WINDOW, from, k); }
  }

  /** Any `k` minutes hold at most `k` times the calls per minute the settings allow each provider, whatever the roles
      that asked. */
  lemma RequestsPerSpan(log: seq<Attempt>, settings: Settings, from: real, k: nat)
    requires Disciplined(log, settings)
    ensures MinuteBudget(log, "nim", settings.nimRpm, from, k)
    ensures MinuteBudget(log, "gemini", settings.geminiRpm, from, k)
    ensures MinuteBudget(log, "ollama", settings.ollamaRpm, from, k)
  {
    hide Disciplined, MinuteBudget;
    KeepsBudget(log, settings, "nim", from, k);
    KeepsBudget(log, settings, "gemini", from, k);
    KeepsBudget(log, settings, "ollama", from, k);
    NamesDiffer();
  }

  lemma NamesDiffer()
    ensures "nim" != "gemini" && "nim" != "ollama" && "gemini" != "ollama"
  {
    assert |"nim"| == 3 && |"gemini"| == 6 && |"ollama"| == 6 && "gemini"[0] == 'g' && "ollama"[0] == 'o';
  }

  /** Which providers can answer: one of the three with a positive rate, a reply, and less than three failures at the end of
      its attempts or none in the last minute. */
  lemma WillingMeans(log: seq<Attempt>, p: ProviderModel, at: real, settings: Settings, answer: Option<string>)
    ensures Willing(log, p, at, settings, answer) <==>
              && answer.Some?
              && ((p.provider == "nim" && settings.nimRpm >= 1) || (p.provider == "gemini" && settings.geminiRpm >= 1)
                  || (p.provider == "ollama" && settings.ollamaRpm >= 1))
              && var h := Of(log, p.provider);
              (Trailing(h) < 3 || h[|h| - 1].end + 60.0 <= at)
  {
    NamesDiffer();
  }

  /** During an outage a provider sees at most one trial per minute once it has failed three times in a row. */
  lemma TrialsPerOutage(log: seq<Attempt>, settings: Settings, time: real, provider: string, from: nat, k: nat)
    requires Disciplined(log, settings) && Timely(log, time)
    requires var h := Of(log, provider);
             from + 3 + k < |h| && forall j :: from <= j < from + 3 + k ==> h[j].reply.None?
    ensures var h := Of(log, provider); h[from + 3 + k].start >= h[from + 2].end + (k + 1) as real * 60.0
  {
    hide Of, Grants, InOrder, Spaced, Paced, Sequential, Rpm;
    OfIsTimely(log, provider, time);
    OutageTrials(Of(log, provider), THRESHOLD, COOLDOWN, from, k);
  }

  class LLMProviderGateway {
    const settings: Settings
    const roleProviders: map<string, seq<ProviderModel>>
    const clock: MonotonicClock
    var limiters: map<string, SlidingWindowLimiter>
    var breakers: map<string, CircuitBreaker>
    ghost var log: seq<Attempt>

    ghost predicate BreakerHolds(p: string, attempts: seq<Attempt>)
      reads this`breakers, breakers.Values
    {
      if p in breakers then
        && breakers[p].Valid() && breakers[p].failureThreshold == THRESHOLD && breakers[p].cooldown == COOLDOWN
        && breakers[p].history == attempts
      else attempts == []
    }

    ghost predicate LimiterHolds(p: string, grants: seq<real>, time: real)
      reads this`limiters, limiters.Values
    {
      if p in limiters then
        && limiters[p].Valid(time) && limiters[p].maxCalls == Rpm(settings, p) && limiters[p].window == WINDOW
        && limiters[p].history == grants
      else grants == []
    }

    /** The grants of provider `q`, when `p` may have been granted one more than the log says. */
    static ghost function Due(log: seq<Attempt>, p: string, extra: Option<real>, q: string): seq<real> {
      Grants(Of(log, q)) + if q == p && extra.Some? then [extra.value] else []
    }

    ghost predicate LimitersHold(log: seq<Attempt>, p: string, extra: Option<real>, time: real)
      reads this`limiters, limiters.Values
    {
      forall q :: LimiterHolds(q, Due(log, p, extra, q), time)
    }

    ghost predicate BreakersHold(log: seq<Attempt>)
      reads this`breakers, breakers.Values
    {
      forall p :: BreakerHolds(p, Of(log, p))
    }

    ghost predicate Separate()
      reads this
    {
      && (forall p, q :: p in breakers && q in breakers && p != q ==> breakers[p] != breakers[q])
      && (forall p, q :: p in limiters && q in limiters && p != q ==> limiters[p] != limiters[q])
    }

    ghost predicate Valid()
      reads this, clock, breakers.Values, limiters.Values
    {
      && Separate() && Timely(log, clock.time) && AllPaced(log)
      && BreakersHold(log) && LimitersHold(log, "", None, clock.time)
    }

    constructor (settings: Settings, roleProviders: map<string, seq<ProviderModel>>, clock: MonotonicClock)
      ensures Valid() && log == [] && breakers == map[] && limiters == map[]
      ensures this.settings == settings && this.roleProviders == roleProviders && this.clock == clock
    {
      this.settings, this.roleProviders, this.clock := settings, roleProviders, clock;
      limiters, breakers, log := map[], map[], [];
    }

    /** Every reachable gateway is disciplined. */
    lemma ValidIsDisciplined()
      requires Valid()
      ensures Disciplined(log, settings)
    {
      hide Of, Grants, InOrder, Spaced, Timely, LimiterHolds;
      forall p
        ensures InOrder(Grants(Of(log, p))) && (Rpm(settings, p) >= 1 ==> Spaced(Grants(Of(log, p)), Rpm(settings, p), WINDOW))
        ensures Rpm(settings, p) < 1 ==> Grants(Of(log, p)) == []
      {
        assert LimiterHolds(p, Due(log, "", None, p), clock.time);
        assert Due(log, "", None, p) == Grants(Of(log, p));
        LimiterPaces(p, Grants(Of(log, p)), clock.time);
      }
    }

    lemma LimiterPaces(p: string, grants: seq<real>, time: real)
      requires LimiterHolds(p, grants, time)
      ensures InOrder(grants) && (Rpm(settings, p) >= 1 ==> Spaced(grants, Rpm(settings, p), WINDOW))
      ensures Rpm(settings, p) < 1 ==> grants == []
    {
    }

    method GetBreaker(p: string)
      requires Valid()
      modifies this`breakers
      ensures Valid() && p in breakers
      ensures p in old(breakers) ==> breakers == old(breakers)
      ensures p !in old(breakers) ==> fresh(breakers[p]) && breakers == old(breakers)[p := breakers[p]]
    {
      hide Of, Grants, Timely, Paced, LimiterHolds;
      if p !in breakers {
        assert BreakerHolds(p, Of(log, p));
        var b := new CircuitBreaker(THRESHOLD, COOLDOWN);
        breakers := breakers[p := b];
        assert forall q :: q != p ==> old(BreakerHolds(q, Of(log, q)));
      }
    }

    lemma NothingDue(p: string, p': string, time: real)
      ensures LimitersHold(log, p, None, time) <==> LimitersHold(log, p', None, time)
    {
      hide LimiterHolds, Of, Grants;
      assert forall q :: Due(log, p, None, q) == Due(log, p', None, q);
    }

    lemma LimitersLater(p: string, extra: Option<real>, time: real, later: real)
      requires LimitersHold(log, p, extra, time) && time <= later
      ensures LimitersHold(log, p, extra, later)
    {
      hide Sound, Due;
      forall q ensures LimiterHolds(q, Due(log, p, extra, q), later) {
        assert LimiterHolds(q, Due(log, p, extra, q), time);
        if q in limiters { SoundLater(limiters[q].history, limiters[q].timestamps, limiters[q].maxCalls, WINDOW, time, later); }
      }
    }

    method GetLimiter(p: string)
      requires Separate() && LimitersHold(log, p, None, clock.time)
      modifies this`limiters
      ensures Separate() && LimitersHold(log, p, None, clock.time)
      ensures p in limiters
      ensures p in old(limiters) ==> limiters == old(limiters)
      ensures p !in old(limiters) ==> fresh(limiters[p]) && limiters == old(limiters)[p := limiters[p]]
    {
      hide Of, Grants, Due;
      if p !in limiters {
        assert LimiterHolds(p, Due(log, p, None, p), clock.time);
        var l := new SlidingWindowLimiter(Rpm(settings, p), WINDOW);
        limiters := limiters[p := l];
        assert forall q :: q != p ==> old(LimiterHolds(q, Due(log, p, None, q), clock.time));
      }
    }

    /** The limiter's turn: a slot for provider `p`, unless it allows no calls. */
    method Acquire(p: string) returns (granted: Option<real>)
      requires Separate() && LimitersHold(log, p, None, clock.time)
      modifies this`limiters, clock, limiters.Values
      ensures Separate() && clock.time >= old(clock.time)
      ensures granted.Some? <==> Rpm(settings, p) >= 1
      ensures LimitersHold(log, p, granted, clock.time)
      ensures forall q :: q in limiters ==> (q in old(limiters) && limiters[q] == old(limiters[q])) || fresh(limiters[q])
    {
      hide Of, Grants, Sound, Due;
      GetLimiter(p);
      ghost var before := clock.time;
      assert LimitersHold(log, p, None, before);
      var limiter := limiters[p];
      assert LimiterHolds(p, Due(log, p, None, p), before);
      label L:
      var ok, _, at, _ := limiter.Acquire(clock);
      granted := if ok then Some(at) else None;
      assert Due(log, p, granted, p) == Due(log, p, None, p) + (if ok then [at] else []) by { GrantDue(p, granted); }
      forall q | q != p ensures LimiterHolds(q, Due(log, p, granted, q), clock.time) {
        assert old@L(LimiterHolds(q, Due(log, p, None, q), before));
        assert Due(log, p, None, q) == Due(log, p, granted, q) by { OthersDue(p, granted, q); }
        if q in limiters {
          SoundLater(limiters[q].history, limiters[q].timestamps, limiters[q].maxCalls, WINDOW, before, clock.time);
        }
      }
    }

    lemma GrantDue(p: string, granted: Option<real>)
      ensures Due(log, p, granted, p) == Due(log, p, None, p) + (if granted.Some? then [granted.value] else [])
    {
    }

    lemma OthersDue(p: string, granted: Option<real>, q: string)
      requires q != p
      ensures Due(log, p, granted, q) == Due(log, p, None, q)
    {
    }

    /** One request: a client must exist for the provider, the limiter must grant a slot, then the world answers. */
    method CallProvider(p: ProviderModel, answer: Option<string>) returns (granted: Option<real>, reply: Option<string>)
      requires Separate() && LimitersHold(log, p.provider, None, clock.time)
      modifies this`limiters, clock, limiters.Values
      ensures Separate() && clock.time >= old(clock.time)
      ensures granted.Some? <==> Known(p.provider) && Rpm(settings, p.provider) >= 1
      ensures reply == if granted.Some? then answer else None
      ensures LimitersHold(log, p.provider, granted, clock.time)
      ensures forall q :: q in limiters ==> (q in old(limiters) && limiters[q] == old(limiters[q])) || fresh(limiters[q])
    {
      hide LimitersHold;
      if !Known(p.provider) { return None, None; }
      granted := Acquire(p.provider);
      if granted.None? { return None, None; }
      ghost var before := clock.time;
      var _ := clock.Now();
      LimitersLater(p.provider, granted, before, clock.time);
      return granted, answer;
    }

    lemma LimitersAgree(a: Attempt, time: real)
      requires LimitersHold(log, a.provider, a.granted, time)
      ensures LimitersHold(log + [a], "", None, time)
    {
      hide Of, Grants, LimiterHolds;
      LogGrows(log, a);
      forall q ensures LimiterHolds(q, Due(log + [a], "", None, q), time) {
        assert LimiterHolds(q, Due(log, a.provider, a.granted, q), time);
        assert Due(log + [a], "", None, q) == Due(log, a.provider, a.granted, q);
      }
    }

    /** The end of a turn: the breaker hears of the outcome. */
    method Settle(a: Attempt, ghost before: real) returns (end: real)
      requires Separate() && Timely(log, before) && AllPaced(log) && BreakersHold(log)
      requires LimitersHold(log, a.provider, a.granted, clock.time)
      requires a.provider in breakers && before <= a.start <= clock.time
      requires !Open(Of(log, a.provider), THRESHOLD, COOLDOWN, a.start)
      modifies this`log, clock, breakers[a.provider]
      ensures Valid() && clock.time >= old(clock.time)
      ensures log == old(log) + [a.(end := end)]
    {
      hide Of, Timely, Due, AllPaced, LimitersHold, Open, Grants, LimiterHolds, Trailing, Paced, Sequential;
      var breaker := breakers[a.provider];
      assert BreakerHolds(a.provider, Of(log, a.provider));
      ghost var asked := clock.time;
      end := clock.time;
      label L:
      if a.reply.Some? {
        breaker.RecordSuccess(a.(end := end));
      } else {
        end := breaker.RecordFailure(clock, a);
        LimitersLater(a.provider, a.granted, asked, clock.time);
      }
      ghost var done := a.(end := end);
      LogGrows(log, done);
      LogStaysPaced(log, done);
      TimelyAppend(log, done, before, clock.time);
      LimitersAgree(done, clock.time);
      forall q ensures BreakerHolds(q, Of(log + [done], q)) {
        assert old@L(BreakerHolds(q, Of(log, q)));
      }
      log := log + [done];
    }

    /** Looks up the provider's breaker and asks whether its circuit is open. */
    method CircuitOpen(p: string) returns (open: bool, now: real)
      requires Valid()
      modifies this`breakers, clock
      ensures Valid() && p in breakers
      ensures open <==> Open(Of(log, p), THRESHOLD, COOLDOWN, now)
      ensures old(clock.time) <= now == clock.time
      ensures forall q :: q in breakers ==> (q in old(breakers) && breakers[q] == old(breakers[q])) || fresh(breakers[q])
    {
      hide Of, Grants, Timely, Paced, Due, AllPaced, LimitersHold, Open, Sequential, LimiterHolds, Trailing;
      GetBreaker(p);
      assert BreakerHolds(p, Of(log, p));
      ghost var before := clock.time;
      open, now := breakers[p].IsOpen(clock);
      LimitersLater("", None, before, clock.time);
      TimelyLater(log, before, clock.time);
    }

    /** One turn of the loop in `call`. */
    method Try(p: ProviderModel, answer: Option<string>) returns (v: Visit)
      requires Valid()
      modifies this`limiters, this`breakers, this`log, clock, limiters.Values, breakers.Values
      ensures Valid() && clock.time >= old(clock.time)
      ensures Proper(old(log), p, v, settings, answer) && log == AfterVisit(old(log), v)
      ensures forall q :: q in limiters ==> (q in old(limiters) && limiters[q] == old(limiters[q])) || fresh(limiters[q])
      ensures forall q :: q in breakers ==> (q in old(breakers) && breakers[q] == old(breakers[q])) || fresh(breakers[q])
    {
      hide Of, Grants, Timely, Due, AllPaced, LimitersHold, Open, BreakerHolds;
      var open, now := CircuitOpen(p.provider);
      if open { return Visit(p, now, None); }
      NothingDue("", p.provider, clock.time);
      var granted, reply := CallProvider(p, answer);
      var a := Attempt(p.provider, p.model, now, granted, clock.time, reply);
      var end := Settle(a, now);
      v := Visit(p, now, Some(a.(end := end)));
    }

    /** The replies of the listed providers are asked for in order; the first one to come back is the answer. */
    method Call(role: string, world: World) returns (outcome: Outcome, visits: seq<Visit>)
      requires Valid()
      modifies this`limiters, this`breakers, this`log, clock, limiters.Values, breakers.Values
      ensures Valid() && clock.time >= old(clock.time)
      ensures outcome == NoProvider <==> role !in roleProviders || roleProviders[role] == []
      ensures var ps := if role in roleProviders then roleProviders[role] else [];
              AllProper(old(log), ps, visits, settings, world) && Concluded(ps, visits, outcome)
      ensures log == AfterVisits(old(log), visits)
      ensures forall q :: q in limiters ==> (q in old(limiters) && limiters[q] == old(limiters[q])) || fresh(limiters[q])
      ensures forall q :: q in breakers ==> (q in old(breakers) && breakers[q] == old(breakers[q])) || fresh(breakers[q])
    {
      hide Valid, Proper, Open, Of, AfterVisit, AfterVisits, AllProper, Separate, BreakersHold, LimitersHold, Timely, AllPaced;
      visits := [];
      NoneVisited(log, if role in roleProviders then roleProviders[role] else [], settings, world);
      if role !in roleProviders || roleProviders[role] == [] { return NoProvider, []; }
      var ps := roleProviders[role];
      for i := 0 to |ps|
        invariant Valid() && clock.time >= old(clock.time)
        invariant |visits| == i && AllProper(old(log), ps, visits, settings, world) && log == AfterVisits(old(log), visits)
        invariant forall k :: 0 <= k < i ==> !Answered(visits[k])
        invariant forall q :: q in limiters ==> (q in old(limiters) && limiters[q] == old(limiters[q])) || fresh(limiters[q])
        invariant forall q :: q in breakers ==> (q in old(breakers) && breakers[q] == old(breakers[q])) || fresh(breakers[q])
      {
        var v := Try(ps[i], world(i));
        AllProperAppend(old(log), ps, visits, v, settings, world);
        visits := visits + [v];
        if v.attempt.Some? && v.attempt.value.reply.Some? { return Reply(v.attempt.value.reply.value), visits; }
      }
      return Exhausted, visits;
    }
  }
}
