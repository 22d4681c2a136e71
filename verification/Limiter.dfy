/** The sliding-window limiter of the LLM gateway (src/core/llm_client.py), over its whole history of grants. */
module Limiter {
  import opened Values
  import opened Windows
  import opened Clock

  predicate IsSuffix(stored: seq<real>, history: seq<real>) {
    |stored| <= |history| && forall k :: 0 <= k < |stored| ==> stored[k] == history[|history| - |stored| + k]
  }

  lemma SuffixIsSlice(stored: seq<real>, history: seq<real>)
    ensures IsSuffix(stored, history) <==> |stored| <= |history| && stored == history[|history| - |stored|..]
  {
    if IsSuffix(stored, history) { assert stored == history[|history| - |stored|..]; }
  }

  /** What ties the stored list to all grants ever made: it is a suffix no longer than the limit, everything it has
      dropped is at least one window old, and the grants themselves keep the pace. */
  predicate Sound(history: seq<real>, stored: seq<real>, maxCalls: int, window: real, time: real) {
    && InOrder(history)
    && (forall i :: 0 <= i < |history| ==> history[i] <= time)
    && IsSuffix(stored, history)
    && (stored == [] || |stored| <= maxCalls)
    && (forall i :: 0 <= i < |history| - |stored| ==> history[i] <= time - window)
    && (maxCalls < 1 ==> history == [])
    && (maxCalls >= 1 ==> Spaced(history, maxCalls, window))
  }

  lemma SoundLater(history: seq<real>, stored: seq<real>, maxCalls: int, window: real, time: real, later: real)
    requires Sound(history, stored, maxCalls, window, time) && time <= later
    ensures Sound(history, stored, maxCalls, window, later)
  {
  }

  /** Pruning the stored list gives exactly the grants inside the window, out of all grants ever made. */
  lemma PruneIsExact(history: seq<real>, stored: seq<real>, maxCalls: int, window: real, now: real)
    requires Sound(history, stored, maxCalls, window, now)
    ensures After(stored, now - window) == After(history, now - window)
    ensures Sound(history, After(stored, now - window), maxCalls, window, now)
  {
    hide Spaced, After;
    var k := |history| - |stored|;
    SuffixIsSlice(stored, history);
    AfterIgnoresOld(history, k, now - window);
    AfterIsSuffix(stored, now - window);
    DropIsSound(history, stored, Stale(stored, now - window), maxCalls, window, now);
  }

  /** Dropping entries that are a window old from the stored list. */
  lemma DropIsSound(history: seq<real>, stored: seq<real>, k: nat, maxCalls: int, window: real, now: real)
    requires Sound(history, stored, maxCalls, window, now) && k <= |stored|
    requires forall i :: 0 <= i < k ==> stored[i] <= now - window
    ensures Sound(history, stored[k..], maxCalls, window, now)
  {
    hide Spaced, InOrder;
    var n := |history| - |stored|;
    forall i | 0 <= i < n + k ensures history[i] <= now - window {
      if i >= n { assert stored[i - n] == history[i]; }
    }
  }

  /** A new grant keeps the pace when the entry that leaves the limit is a window old. */
  lemma SpacedAppend(history: seq<real>, gap: nat, window: real, t: real)
    requires Spaced(history, gap, window) && gap >= 1
    requires |history| >= gap ==> t >= history[|history| - gap] + window
    ensures Spaced(history + [t], gap, window)
  {
    var h := history + [t];
    forall i, j | 0 <= i < |h| && i < j < |h| && j == i + gap ensures h[j] >= h[i] + window {
      if j < |history| { assert history[j] >= history[i] + window; }
    }
  }

  lemma GrantIsSound(history: seq<real>, stored: seq<real>, maxCalls: int, window: real, t: real)
    requires Sound(history, stored, maxCalls, window, t) && |stored| < maxCalls
    ensures Sound(history + [t], stored + [t], maxCalls, window, t)
  {
    SpacedAppend(history, maxCalls, window, t);
  }

  lemma PopIsSound(history: seq<real>, stored: seq<real>, maxCalls: int, window: real, time: real, later: real)
    requires Sound(history, stored, maxCalls, window, time) && stored != []
    requires time <= later && stored[0] <= later - window
    ensures Sound(history, stored[1..], maxCalls, window, later)
  {
    SoundLater(history, stored, maxCalls, window, time, later);
    DropIsSound(history, stored, 1, maxCalls, window, later);
  }

  /** Any half-open span of `k` windows holds at most `k * maxCalls` grants. */
  lemma GrantsPerSpan(history: seq<real>, stored: seq<real>, maxCalls: nat, window: real, time: real, from: real, k: nat)
    requires Sound(history, stored, maxCalls, window, time) && maxCalls >= 1 && window >= 0.0
    ensures |Between(history, from, from + k as real * window)| <= k * maxCalls
  {
    SpanBound(history, maxCalls, window, from, k);
  }

  /** What the full branch finds at the head of the pruned list. */
  lemma OldestIsRecent(history: seq<real>, pruned: seq<real>, maxCalls: int, window: real, now: real)
    requires Sound(history, pruned, maxCalls, window, now)
    requires pruned == After(history, now - window) && pruned != []
    ensures now - window < pruned[0] <= now && |pruned| <= maxCalls
  {
    AfterIsSuffix(history, now - window);
  }

  class SlidingWindowLimiter {
    const maxCalls: int
    const window: real
    var timestamps: seq<real>
    ghost var history: seq<real>

    ghost predicate Valid(time: real)
      reads this
    {
      Sound(history, timestamps, maxCalls, window, time)
    }

    constructor (maxCalls: int, window: real)
      ensures this.maxCalls == maxCalls && this.window == window && history == []
      ensures forall time :: Valid(time)
    {
      this.maxCalls, this.window, timestamps, history := maxCalls, window, [], [];
    }

    /** Waits for a free slot. It sleeps exactly when the window up to `now` already holds `maxCalls` grants, and with
        no calls allowed at all it fails (popping an empty list) and leaves the history alone. */
    method Acquire(clock: MonotonicClock) returns (ok: bool, now: real, granted: real, slept: Option<real>)
      requires Valid(clock.time)
      modifies this`timestamps, this`history, clock
      ensures Valid(clock.time)
      ensures old(clock.time) <= now <= granted <= clock.time
      ensures ok <==> maxCalls >= 1
      ensures history == if ok then old(history) + [granted] else old(history)
      ensures ok ==> (slept.Some? <==> |After(old(history), now - window)| >= maxCalls)
      ensures slept.Some? ==> 0.05 < slept.value <= window + 0.05 && now + slept.value <= granted
      ensures slept.None? ==> granted == now
    {
      hide Sound, After;
      now := clock.Now();
      granted, slept := now, None;
      SoundLater(history, timestamps, maxCalls, window, old(clock.time), now);
      PruneIsExact(history, timestamps, maxCalls, window, now);
      ghost var pruned := After(timestamps, now - window);
      timestamps := After(timestamps, now - window);
      if |timestamps| < maxCalls {
        GrantIsSound(history, timestamps, maxCalls, window, now);
        timestamps, history := timestamps + [now], history + [now];
        return true, now, now, None;
      }
      if timestamps == [] { return false, now, now, None; }
      var oldest := timestamps[0];
      timestamps := timestamps[1..];
      var sleepFor := oldest + window - now + 0.05;
      OldestIsRecent(history, pruned, maxCalls, window, now);
      clock.Sleep(sleepFor);
      granted := clock.Now();
      PopIsSound(history, pruned, maxCalls, window, now, granted);
      GrantIsSound(history, timestamps, maxCalls, window, granted);
      timestamps, history := timestamps + [granted], history + [granted];
      return true, now, granted, Some(sleepFor);
    }
  }
}
