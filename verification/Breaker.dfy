/** The circuit breaker of the LLM gateway (src/core/llm_client.py), as a function of a provider's attempts. */
module Breaker {
  import opened Values
  import opened Clock

  /** One attempt at a provider: when it began, when the limiter let it through (if it got that far), when it ended,
      and the reply, None for any exception. */
  datatype Attempt = Attempt(provider: string, model: string, start: real, granted: Option<real>, end: real,
                             reply: Option<string>)

  /** The number of failures since the last success. */
  function Trailing(h: seq<Attempt>): (n: nat)
    ensures n <= |h|
  {
    if h == [] || h[|h| - 1].reply.Some? then 0 else 1 + Trailing(h[..|h| - 1])
  }

  /** They are all failures, and the attempt before them, if any, is a success. */
  lemma {:induction false} TrailingMeans(h: seq<Attempt>)
    ensures var n := Trailing(h);
            && (forall k :: |h| - n <= k < |h| ==> h[k].reply.None?)
            && (n < |h| ==> h[|h| - n - 1].reply.Some?)
  {
    if h != [] && h[|h| - 1].reply.None? {
      var rest := h[..|h| - 1];
      TrailingMeans(rest);
      forall k | |h| - Trailing(h) <= k < |h| ensures h[k].reply.None? { if k < |rest| { assert rest[k] == h[k]; } }
    }
  }

  /** Enough failures in a row, and the last of them too recent. */
  predicate Open(h: seq<Attempt>, threshold: nat, cooldown: real, now: real) {
    h != [] && threshold >= 1 && Trailing(h) >= threshold && now - h[|h| - 1].end < cooldown
  }

  /** No attempt began while the circuit was open. */
  predicate Paced(h: seq<Attempt>, threshold: nat, cooldown: real) {
    forall i :: 0 <= i < |h| ==> !Open(h[..i], threshold, cooldown, h[i].start)
  }

  /** Attempts take time and do not overlap. */
  predicate Sequential(h: seq<Attempt>) {
    (forall i :: 0 <= i < |h| ==> h[i].start <= h[i].end) &&
    (forall i, j :: 0 <= i < j < |h| ==> h[i].end <= h[j].start)
  }

  lemma PacedAppend(h: seq<Attempt>, a: Attempt, threshold: nat, cooldown: real)
    requires Paced(h, threshold, cooldown) && !Open(h, threshold, cooldown, a.start)
    ensures Paced(h + [a], threshold, cooldown)
  {
    var h' := h + [a];
    assert h'[..|h|] == h;
    forall i | 0 <= i < |h| ensures !Open(h'[..i], threshold, cooldown, h'[i].start) { assert h'[..i] == h[..i]; }
  }

  /** A stretch of failures counts as trailing at its end. */
  lemma {:induction false} StretchTrails(h: seq<Attempt>, from: nat)
    requires from <= |h| && forall k :: from <= k < |h| ==> h[k].reply.None?
    ensures Trailing(h) >= |h| - from
  {
    if from < |h| { StretchTrails(h[..|h| - 1], from); }
  }

  /** After `threshold` failures in a row, the next attempt waits out the cooldown. */
  lemma NextTrialWaits(h: seq<Attempt>, threshold: nat, cooldown: real, from: nat, next: nat)
    requires Paced(h, threshold, cooldown) && threshold >= 1
    requires from + threshold <= next < |h| && forall k :: from <= k < next ==> h[k].reply.None?
    ensures h[next].start >= h[next - 1].end + cooldown
  {
    StretchTrails(h[..next], from);
    assert !Open(h[..next], threshold, cooldown, h[next].start);
  }

  lemma Cooldowns(k: nat, cooldown: real)
    ensures (k + 1) as real * cooldown == k as real * cooldown + cooldown
  {
  }

  /** In an outage (failures only, from attempt `from` on), the attempts after the first `threshold` come at least one
      cooldown apart: the provider sees at most one trial per cooldown until it succeeds again. */
  lemma {:induction false} OutageTrials(h: seq<Attempt>, threshold: nat, cooldown: real, from: nat, k: nat)
    requires Paced(h, threshold, cooldown) && Sequential(h) && threshold >= 1
    requires from + threshold + k < |h| && forall j :: from <= j < from + threshold + k ==> h[j].reply.None?
    ensures h[from + threshold + k].start >= h[from + threshold - 1].end + (k + 1) as real * cooldown
  {
    hide Paced, Trailing;
    var next := from + threshold + k;
    NextTrialWaits(h, threshold, cooldown, from, next);
    Cooldowns(k, cooldown);
    if k > 0 {
      OutageTrials(h, threshold, cooldown, from, k - 1);
      assert h[next - 1].start <= h[next - 1].end;
    }
  }

  class CircuitBreaker {
    const failureThreshold: nat
    const cooldown: real
    var consecutiveFailures: nat
    var openedAt: Option<real>
    ghost var history: seq<Attempt>

    ghost predicate Valid()
      reads this
    {
      && failureThreshold >= 1
      && consecutiveFailures == Trailing(history)
      && openedAt == (if consecutiveFailures >= failureThreshold then Some(history[|history| - 1].end) else None)
    }

    constructor (failureThreshold: nat, cooldown: real)
      requires failureThreshold >= 1
      ensures Valid() && history == [] && this.failureThreshold == failureThreshold && this.cooldown == cooldown
    {
      this.failureThreshold, this.cooldown := failureThreshold, cooldown;
      consecutiveFailures, openedAt, history := 0, None, [];
    }

    method IsOpen(clock: MonotonicClock) returns (open: bool, now: real)
      requires Valid()
      modifies clock
      ensures old(clock.time) <= now == clock.time
      ensures open <==> Open(history, failureThreshold, cooldown, now)
    {
      now := clock.time;
      if openedAt.None? { return false, now; }
      now := clock.Now();
      return now - openedAt.value < cooldown, now;
    }

    method RecordSuccess(ghost a: Attempt)
      requires Valid() && a.reply.Some?
      modifies this
      ensures Valid() && history == old(history) + [a]
    {
      consecutiveFailures, openedAt := 0, None;
      history := history + [a];
    }

    /** The failure is dated by the clock reading that opens the circuit. */
    method RecordFailure(clock: MonotonicClock, ghost a: Attempt) returns (end: real)
      requires Valid() && a.reply.None?
      modifies this, clock
      ensures Valid() && history == old(history) + [a.(end := end)]
      ensures old(clock.time) <= end == clock.time
    {
      consecutiveFailures := consecutiveFailures + 1;
      end := clock.time;
      ghost var before := history;
      if consecutiveFailures >= failureThreshold {
        end := clock.Now();
        openedAt := Some(end);
      }
      history := history + [a.(end := end)];
      assert history[..|history| - 1] == before;
    }
  }
}
