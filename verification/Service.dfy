/** The API's ticket endpoint as one request at a time runs it (src/api/main.py, src/api/idempotency.py). */
module Service {
  import opened Values
  import opened Clock
  import opened ClientLimiter
  import opened Admission

  /** The actions of one request that nothing interrupts. */
  function Solo(key: Key, i: nat, elapsed: real, run: Option<Outcome>): seq<Action> {
    [Arrive(key)] + [Lookup(i)] + [Check(i, elapsed)] + [Finish(i, run)] + [Store(i)]
  }

  lemma RunOne(cfg: Settings, s: State, a: Action)
    ensures Run(cfg, s, [a]) == Step(cfg, s, a)
  {
    assert [a][1..] == [];
    assert Run(cfg, Step(cfg, s, a), []) == Step(cfg, s, a);
  }

  lemma SoloSteps(cfg: Settings, s: State, key: Key, i: nat, elapsed: real, run: Option<Outcome>)
    ensures Run(cfg, s, Solo(key, i, elapsed, run)) ==
            Step(cfg, Step(cfg, Step(cfg, Step(cfg, Step(cfg, s, Arrive(key)), Lookup(i)), Check(i, elapsed)), Finish(i, run)), Store(i))
  {
    hide Step, Run;
    RunAppend(cfg, s, [Arrive(key)] + [Lookup(i)] + [Check(i, elapsed)] + [Finish(i, run)], [Store(i)]);
    RunAppend(cfg, s, [Arrive(key)] + [Lookup(i)] + [Check(i, elapsed)], [Finish(i, run)]);
    RunAppend(cfg, s, [Arrive(key)] + [Lookup(i)], [Check(i, elapsed)]);
    RunAppend(cfg, s, [Arrive(key)], [Lookup(i)]);
    RunOne(cfg, s, Arrive(key));
    var s1 := Step(cfg, s, Arrive(key));
    RunOne(cfg, s1, Lookup(i));
    var s2 := Step(cfg, s1, Lookup(i));
    RunOne(cfg, s2, Check(i, elapsed));
    var s3 := Step(cfg, s2, Check(i, elapsed));
    RunOne(cfg, s3, Finish(i, run));
    RunOne(cfg, Step(cfg, s3, Finish(i, run)), Store(i));
  }

  /** What a request that nothing interrupts gets, and what it leaves behind. */
  predicate SoloResult(cfg: Settings, s: State, key: Key, elapsed: real, run: Option<Outcome>, s': State, reply: Reply) {
    var (limits, ok) := Allow(s.limits, cfg.maxCalls, cfg.window, key.client, s.now + elapsed);
    if key in s.cache then
      reply == Answer(s.cache[key], true) && s'.cache == s.cache && s'.limits == s.limits && s'.now == s.now
    else if !ok then
      reply == TooMany && s'.cache == s.cache && s'.limits == limits && s'.now == s.now + elapsed
    else if run.None? then
      reply == Failed && s'.cache == s.cache && s'.limits == limits && s'.now == s.now + elapsed
    else
      var response := Response(key.ticket, run.value);
      reply == Answer(response, false) && s'.cache == s.cache[key := response] && s'.limits == limits && s'.now == s.now + elapsed
  }

  /** Replies have been given to all requests, each before the next one began. */
  predicate OneByOne(s: State) {
    && (forall i :: 0 <= i < |s.requests| ==> s.requests[i].phase.Replied? && s.requests[i].ended < s.tick)
    && (forall i, j :: 0 <= i < j < |s.requests| ==> s.requests[i].ended < s.requests[j].begun)
  }

  lemma SoloRun(cfg: Settings, s: State, key: Key, elapsed: real, run: Option<Outcome>)
    requires elapsed >= 0.0
    ensures var s' := Run(cfg, s, Solo(key, |s.requests|, elapsed, run));
            && s'.tick == s.tick + 5
            && |s'.requests| == |s.requests| + 1 && s'.requests[..|s.requests|] == s.requests
            && var r := s'.requests[|s.requests|];
            && r.key == key && r.phase.Replied? && s.tick < r.begun && r.ended < s'.tick
            && SoloResult(cfg, s, key, elapsed, run, s', r.phase.reply)
  {
    hide Run, Allow;
    SoloSteps(cfg, s, key, |s.requests|, elapsed, run);
  }

  lemma SoloStaysOneByOne(s: State, s': State)
    requires OneByOne(s) && s.tick <= s'.tick
    requires |s'.requests| == |s.requests| + 1 && s'.requests[..|s.requests|] == s.requests
    requires var r := s'.requests[|s.requests|]; r.phase.Replied? && s.tick < r.begun && r.ended < s'.tick
    ensures OneByOne(s')
  {
    forall i | 0 <= i < |s.requests| ensures s'.requests[i] == s.requests[i] {
      assert s'.requests[..|s.requests|][i] == s.requests[i];
    }
  }

  lemma OneByOneIsOneAtATime(s: State, key: Key)
    requires OneByOne(s)
    ensures OneAtATime(s, key)
  {
  }

  class IdempotencyCache {
    var store: map<Key, Response>

    constructor ()
      ensures store == map[]
    {
      store := map[];
    }

    method Get(key: Key) returns (r: Option<Response>)
      ensures r == if key in store then Some(store[key]) else None
    {
      return if key in store then Some(store[key]) else None;
    }

    method Put(key: Key, response: Response)
      modifies this
      ensures store == old(store)[key := response]
    {
      store := store[key := response];
    }
  }

  class TicketApi {
    const cache: IdempotencyCache
    const limiter: ClientRateLimiter
    const clock: MonotonicClock
    ghost var s: State
    ghost var trace: seq<Action>

    ghost function Cfg(): Settings {
      Settings(limiter.maxCalls, limiter.window)
    }

    /** The endpoint's objects are in step with a reachable state of the protocol. */
    ghost predicate Valid()
      reads this, cache, limiter, clock
    {
      && s == Run(Cfg(), Init(), trace) && OneByOne(s)
      && cache.store == s.cache && limiter.limits == s.limits
      && s.now <= clock.time && limiter.Valid(clock.time)
    }

    constructor (maxCalls: int, window: real)
      ensures Valid() && fresh(cache) && fresh(limiter) && fresh(clock) && trace == []
      ensures limiter.maxCalls == maxCalls && limiter.window == window
    {
      cache := new IdempotencyCache();
      limiter := new ClientRateLimiter(maxCalls, window);
      clock := new MonotonicClock();
      s, trace := Init(), [];
    }

    /** However many requests the endpoint has served one by one, at most one run per key completed, and every answer
        for a key is that run's. */
    lemma OneRunEach(key: Key, i: nat, j: nat)
      requires Valid() && i < |s.requests| && j < |s.requests| && s.requests[i].key == s.requests[j].key == key
      ensures Completed(s.requests[i]) && Completed(s.requests[j]) ==> i == j
      ensures (Completed(s.requests[i]) || Replayed(s.requests[i])) && (Completed(s.requests[j]) || Replayed(s.requests[j])) ==>
                s.requests[i].phase.reply.response == s.requests[j].phase.reply.response
    {
      hide Run, OneByOne, OneAtATime, WellKept;
      OneByOneIsOneAtATime(s, key);
      OneRunPerKey(Cfg(), trace, key, i, j);
    }

    /** The four sections of `submit_ticket` in a row; `run` is what the pipeline does, None for an exception. The reply
        and the new state are those of the protocol, so everything proved of its runs holds here. */
    method SubmitTicket(key: Key, run: Option<Outcome>) returns (reply: Reply, ghost elapsed: real)
      requires Valid()
      modifies this`s, this`trace, cache, limiter`timestamps, limiter`limits, clock
      ensures Valid() && elapsed >= 0.0
      ensures trace == old(trace) + Solo(key, |old(s).requests|, elapsed, run)
      ensures SoloResult(Cfg(), old(s), key, elapsed, run, s, reply)
      ensures |s.requests| == |old(s).requests| + 1 && s.requests[|old(s).requests|].phase == Replied(reply)
    {
      hide Run, Allow, WellKept, Solo, OneByOne;
      elapsed := 0.0;
      ghost var before := s;
      var cached := cache.Get(key);
      if cached.Some? {
        reply := Answer(cached.value, true);
      } else {
        var ok, now := limiter.AllowCall(key.client, clock);
        elapsed := now - s.now;
        if !ok {
          reply := TooMany;
        } else if run.None? {
          reply := Failed;
        } else {
          var response := Response(key.ticket, run.value);
          cache.Put(key, response);
          reply := Answer(response, false);
        }
      }
      ghost var actions := Solo(key, |s.requests|, elapsed, run);
      SoloRun(Cfg(), s, key, elapsed, run);
      RunAppend(Cfg(), Init(), trace, actions);
      s, trace := Run(Cfg(), s, actions), trace + actions;
      SoloStaysOneByOne(before, s);
    }
  }
}
