/** Time stamps in order, and how many of them fall inside a window. Both rate limiters rest on it. */
module Windows {

  predicate InOrder(s: seq<real>) {
    forall i, j :: 0 <= i < j < |s| ==> s[i] <= s[j]
  }

  /** The entries later than `cutoff`, in order. */
  function After(s: seq<real>, cutoff: real): (r: seq<real>)
    ensures |r| <= |s|
  {
    if s == [] then [] else (if s[0] > cutoff then [s[0]] else []) + After(s[1..], cutoff)
  }

  /** The entries in the half-open span from `from` to `to`. */
  function Between(s: seq<real>, from: real, to: real): (r: seq<real>)
    ensures |r| <= |s|
  {
    if s == [] then [] else (if from <= s[0] < to then [s[0]] else []) + Between(s[1..], from, to)
  }

  /** Dropping entries that are already at or before the cutoff changes nothing. */
  lemma {:induction false} AfterIgnoresOld(s: seq<real>, k: nat, cutoff: real)
    requires k <= |s| && forall i :: 0 <= i < k ==> s[i] <= cutoff
    ensures After(s, cutoff) == After(s[k..], cutoff)
  {
    if k > 0 {
      assert s[1..][k - 1..] == s[k..];
      AfterIgnoresOld(s[1..], k - 1, cutoff);
    }
  }

  lemma {:induction false} AfterKeepsNew(s: seq<real>, cutoff: real)
    requires forall i :: 0 <= i < |s| ==> s[i] > cutoff
    ensures After(s, cutoff) == s
  {
    if s != [] {
      AfterKeepsNew(s[1..], cutoff);
      assert s == [s[0]] + s[1..];
    }
  }

  /** How many of the stamps in order come at or before the cutoff. */
  function Stale(s: seq<real>, cutoff: real): (n: nat)
    ensures n <= |s|
  {
    if s != [] && s[0] <= cutoff then 1 + Stale(s[1..], cutoff) else 0
  }

  lemma {:induction false} StaleSplits(s: seq<real>, cutoff: real)
    requires InOrder(s)
    ensures forall i :: 0 <= i < |s| ==> (s[i] <= cutoff <==> i < Stale(s, cutoff))
  {
    if s != [] && s[0] <= cutoff {
      StaleSplits(s[1..], cutoff);
      forall i | 0 <= i < |s| ensures s[i] <= cutoff <==> i < Stale(s, cutoff) {
        if i > 0 { assert s[i] == s[1..][i - 1]; }
      }
    }
  }

  /** On stamps in order, `After` is a suffix: what it drops is all at or before the cutoff. */
  lemma AfterIsSuffix(s: seq<real>, cutoff: real)
    requires InOrder(s)
    ensures After(s, cutoff) == s[Stale(s, cutoff)..]
    ensures forall i :: 0 <= i < |s| ==> (s[i] <= cutoff <==> i < Stale(s, cutoff))
  {
    StaleSplits(s, cutoff);
    var k := Stale(s, cutoff);
    AfterIgnoresOld(s, k, cutoff);
    AfterKeepsNew(s[k..], cutoff);
  }

  /** Among stamps in order, those before `x` come first. */
  function Before(s: seq<real>, x: real): (n: nat)
    ensures n <= |s|
  {
    if s != [] && s[0] < x then 1 + Before(s[1..], x) else 0
  }

  lemma {:induction false} BeforeSplits(s: seq<real>, x: real)
    requires InOrder(s)
    ensures forall i :: 0 <= i < |s| ==> (s[i] < x <==> i < Before(s, x))
  {
    if s != [] && s[0] < x {
      BeforeSplits(s[1..], x);
      forall i | 0 <= i < |s| ensures s[i] < x <==> i < Before(s, x) {
        if i > 0 { assert s[i] == s[1..][i - 1]; }
      }
    }
  }

  lemma {:induction false} BetweenCounts(s: seq<real>, from: real, to: real)
    requires InOrder(s) && from <= to
    ensures |Between(s, from, to)| == Before(s, to) - Before(s, from)
  {
    if s != [] {
      BetweenCounts(s[1..], from, to);
      if s[0] >= to { BeforeSplits(s[1..], to); NoneBefore(s[1..], to); NoneBefore(s[1..], from); }
      else if s[0] >= from { NoneBefore(s[1..], from); }
    }
  }

  lemma NoneBefore(s: seq<real>, x: real)
    requires s == [] || s[0] >= x
    ensures Before(s, x) == 0
  {
  }

  /** Entry `i + gap` comes at least one `window` after entry `i`. */
  predicate Spaced(s: seq<real>, gap: int, window: real) {
    forall i, j :: 0 <= i < |s| && i < j < |s| && j == i + gap ==> s[j] >= s[i] + window
  }

  lemma {:induction false} SpacedMany(s: seq<real>, gap: nat, window: real, i: nat, k: nat)
    requires Spaced(s, gap, window) && gap >= 1 && i + k * gap < |s|
    ensures s[i + k * gap] >= s[i] + k as real * window
  {
    if k > 0 {
      assert k * gap == (k - 1) * gap + gap;
      SpacedMany(s, gap, window, i, k - 1);
      assert s[i + (k - 1) * gap + gap] >= s[i + (k - 1) * gap] + window;
      assert k as real * window == (k - 1) as real * window + window;
    }
  }

  lemma SpanHolds(s: seq<real>, from: real, to: real, n: nat)
    requires InOrder(s) && from <= to
    requires var first := Before(s, from); first + n < |s| ==> s[first + n] >= s[first] + (to - from)
    ensures |Between(s, from, to)| <= n
  {
    BetweenCounts(s, from, to);
    BeforeSplits(s, from);
    BeforeSplits(s, to);
  }

  /** Any half-open span of `k` windows holds at most `k * gap` entries. */
  lemma SpanBound(s: seq<real>, gap: nat, window: real, from: real, k: nat)
    requires InOrder(s) && Spaced(s, gap, window) && gap >= 1 && window >= 0.0
    ensures |Between(s, from, from + k as real * window)| <= k * gap
  {
    hide Between, InOrder, Spaced;
    var n, span := k * gap, k as real * window;
    assert span >= 0.0;
    var first := Before(s, from);
    if first + n < |s| { SpacedMany(s, gap, window, first, k); }
    SpanHolds(s, from, from + span, n);
  }
}
