/** The per-client limiter of the API (src/api/rate_limit.py): it rejects instead of waiting. */
module ClientLimiter {
  import opened Windows
  import opened Clock
  import opened Limiter

  function ListOf(m: map<string, seq<real>>, client: string): seq<real> {
    if client in m then m[client] else []
  }

  /** `stored` is what the limiter keeps; `grants` is everything it ever allowed, never pruned. */
  datatype Limits = Limits(stored: map<string, seq<real>>, grants: map<string, seq<real>>)

  /** One decision: prune the client's list, then allow if it is short enough. */
  function Allow(l: Limits, maxCalls: int, window: real, client: string, now: real): (Limits, bool) {
    var kept := After(ListOf(l.stored, client), now - window);
    if |kept| >= maxCalls then (l.(stored := l.stored[client := kept]), false)
    else (Limits(l.stored[client := kept + [now]], l.grants[client := ListOf(l.grants, client) + [now]]), true)
  }

  /** Every client's list is sound with respect to that client's grants. */
  ghost predicate WellKept(l: Limits, maxCalls: int, window: real, time: real) {
    forall c :: Sound(ListOf(l.grants, c), ListOf(l.stored, c), maxCalls, window, time)
  }

  lemma WellKeptLater(l: Limits, maxCalls: int, window: real, time: real, later: real)
    requires WellKept(l, maxCalls, window, time) && time <= later
    ensures WellKept(l, maxCalls, window, later)
  {
    hide Sound;
    forall c ensures Sound(ListOf(l.grants, c), ListOf(l.stored, c), maxCalls, window, later) {
      SoundLater(ListOf(l.grants, c), ListOf(l.stored, c), maxCalls, window, time, later);
    }
  }

  /** The pruned list decides exactly as the full history would: a call is allowed when fewer than `maxCalls` grants of
      that client lie in the window up to now. A rejection uses no budget, other clients are not touched, and no list
      outgrows the limit. */
  lemma AllowIsExact(l: Limits, maxCalls: int, window: real, client: string, now: real)
    requires WellKept(l, maxCalls, window, now)
    ensures var (l', ok) := Allow(l, maxCalls, window, client, now);
            && (ok <==> |After(ListOf(l.grants, client), now - window)| < maxCalls)
            && l'.grants == (if ok then l.grants[client := ListOf(l.grants, client) + [now]] else l.grants)
            && (forall c :: c != client ==> ListOf(l'.stored, c) == ListOf(l.stored, c))
            && |ListOf(l'.stored, client)| <= (if maxCalls < 0 then 0 else maxCalls)
  {
    hide Sound, After;
    var grants, stored := ListOf(l.grants, client), ListOf(l.stored, client);
    PruneIsExact(grants, stored, maxCalls, window, now);
    SoundLength(grants, After(stored, now - window), maxCalls, window, now);
  }

  lemma AllowStaysWellKept(l: Limits, maxCalls: int, window: real, client: string, now: real)
    requires WellKept(l, maxCalls, window, now)
    ensures WellKept(Allow(l, maxCalls, window, client, now).0, maxCalls, window, now)
  {
    hide Sound, After;
    var grants, stored := ListOf(l.grants, client), ListOf(l.stored, client);
    PruneIsExact(grants, stored, maxCalls, window, now);
    var kept := After(stored, now - window);
    if |kept| < maxCalls { GrantIsSound(grants, kept, maxCalls, window, now); }
    var l' := Allow(l, maxCalls, window, client, now).0;
    forall c ensures Sound(ListOf(l'.grants, c), ListOf(l'.stored, c), maxCalls, window, now) {
      assert Sound(ListOf(l.grants, c), ListOf(l.stored, c), maxCalls, window, now);
    }
  }

  lemma SoundLength(history: seq<real>, stored: seq<real>, maxCalls: int, window: real, time: real)
    requires Sound(history, stored, maxCalls, window, time)
    ensures |stored| <= if maxCalls < 0 then 0 else maxCalls
  {
  }

  // ---- a client's decisions depend on its own calls only ----

  datatype Call = Call(client: string, now: real)

  function Decisions(l: Limits, maxCalls: int, window: real, calls: seq<Call>): seq<bool>
    decreases |calls|
  {
    if calls == [] then []
    else var (l', ok) := Allow(l, maxCalls, window, calls[0].client, calls[0].now);
         [ok] + Decisions(l', maxCalls, window, calls[1..])
  }

  /** The decisions on one client's calls, picked out of a run. */
  function Picked(calls: seq<Call>, decisions: seq<bool>, client: string): seq<bool>
    requires |calls| == |decisions|
  {
    if calls == [] then []
    else (if calls[0].client == client then [decisions[0]] else []) + Picked(calls[1..], decisions[1..], client)
  }

  function CallsOf(calls: seq<Call>, client: string): seq<Call> {
    if calls == [] then []
    else (if calls[0].client == client then [calls[0]] else []) + CallsOf(calls[1..], client)
  }

  lemma {:induction false} DecisionsLength(l: Limits, maxCalls: int, window: real, calls: seq<Call>)
    ensures |Decisions(l, maxCalls, window, calls)| == |calls|
    decreases |calls|
  {
    if calls != [] {
      DecisionsLength(Allow(l, maxCalls, window, calls[0].client, calls[0].now).0, maxCalls, window, calls[1..]);
    }
  }

  /** Whatever other clients do, a client is answered as if it were alone. */
  lemma {:induction false} ClientsAreIndependent(l: Limits, l': Limits, maxCalls: int, window: real, calls: seq<Call>,
                                                 client: string)
    requires ListOf(l.stored, client) == ListOf(l'.stored, client)
    ensures |Decisions(l, maxCalls, window, calls)| == |calls|
    ensures Picked(calls, Decisions(l, maxCalls, window, calls), client)
            == Decisions(l', maxCalls, window, CallsOf(calls, client))
    decreases |calls|
  {
    DecisionsLength(l, maxCalls, window, calls);
    if calls != [] {
      var c := calls[0];
      var next := Allow(l, maxCalls, window, c.client, c.now).0;
      var next' := if c.client == client then Allow(l', maxCalls, window, client, c.now).0 else l';
      ClientsAreIndependent(next, next', maxCalls, window, calls[1..], client);
      var ds := Decisions(l, maxCalls, window, calls);
      assert ds[1..] == Decisions(next, maxCalls, window, calls[1..]);
      if c.client == client {
        var own := CallsOf(calls, client);
        assert own[0] == c && own[1..] == CallsOf(calls[1..], client);
      } else {
        assert CallsOf(calls, client) == CallsOf(calls[1..], client);
      }
    }
  }

  class ClientRateLimiter {
    const maxCalls: int
    const window: real
    var timestamps: map<string, seq<real>>
    ghost var limits: Limits

    ghost predicate Valid(time: real)
      reads this
    {
      timestamps == limits.stored && WellKept(limits, maxCalls, window, time)
    }

    constructor (maxCalls: int, window: real)
      ensures this.maxCalls == maxCalls && this.window == window && limits == Limits(map[], map[])
      ensures forall time :: Valid(time)
    {
      this.maxCalls, this.window, timestamps, limits := maxCalls, window, map[], Limits(map[], map[]);
    }

    method AllowCall(client: string, clock: MonotonicClock) returns (ok: bool, now: real)
      requires Valid(clock.time)
      modifies this`timestamps, this`limits, clock
      ensures Valid(clock.time) && old(clock.time) <= now == clock.time
      ensures (limits, ok) == Allow(old(limits), maxCalls, window, client, now)
      ensures ok <==> |After(ListOf(old(limits).grants, client), now - window)| < maxCalls
    {
      hide After, WellKept;
      now := clock.Now();
      WellKeptLater(limits, maxCalls, window, old(clock.time), now);
      AllowIsExact(limits, maxCalls, window, client, now);
      AllowStaysWellKept(limits, maxCalls, window, client, now);
      ghost var after := Allow(limits, maxCalls, window, client, now);
      var kept := After(ListOf(timestamps, client), now - window);
      ok := |kept| < maxCalls;
      timestamps := timestamps[client := if ok then kept + [now] else kept];
      limits := after.0;
    }
  }
}
