/** When a ticket's pipeline is run again (src/api/idempotency.py promises that a retry re-dispatches nothing): a run that
    raises caches nothing, so every request after it starts a new one. */
module Retries {
  import Values
  import Windows
  import opened Admission

  /** A replay comes after the write it repeats; replies are dated after the lookup and in the past. */
  predicate ReplaysFollowWrites(s: State) {
    forall i :: 0 <= i < |s.requests| && Replayed(s.requests[i]) ==> CompletedBefore(s, s.requests[i].key, s.requests[i].begun)
  }

  predicate CompletedBefore(s: State, key: Key, tick: nat) {
    exists j :: 0 <= j < |s.requests| && s.requests[j].key == key && Completed(s.requests[j]) && s.requests[j].ended < tick
  }

  predicate RepliesAreDated(s: State) {
    forall i :: 0 <= i < |s.requests| && s.requests[i].phase.Replied? ==>
      s.requests[i].begun <= s.requests[i].ended < s.tick
  }

  lemma CompletedBeforeStays(cfg: Settings, s: State, a: Action, key: Key, tick: nat)
    requires CompletedBefore(s, key, tick)
    ensures CompletedBefore(Step(cfg, s, a), key, tick)
  {
    hide Step;
    CompletedStays(cfg, s, a);
    var j :| 0 <= j < |s.requests| && s.requests[j].key == key && Completed(s.requests[j]) && s.requests[j].ended < tick;
    assert Step(cfg, s, a).requests[j] == s.requests[j];
  }

  /** A request newly answered from the cache was looked up just now, and some write came before. */
  lemma NewReplayFollows(cfg: Settings, s: State, a: Action, i: nat)
    requires CacheIsProduced(s) && RepliesAreDated(s)
    requires i < |Step(cfg, s, a).requests| && Replayed(Step(cfg, s, a).requests[i])
    requires i >= |s.requests| || !Replayed(s.requests[i])
    ensures Step(cfg, s, a).requests[i].begun == s.tick && CompletedBefore(s, Step(cfg, s, a).requests[i].key, s.tick)
  {
    hide ClientLimiter.Allow;
    NewReplays(cfg, s, a, i);
    var key := Step(cfg, s, a).requests[i].key;
    assert ProducedBy(s.requests, key, s.cache[key]);
  }

  lemma StepKeepsReplayOrder(cfg: Settings, s: State, a: Action)
    requires CacheIsProduced(s) && RepliesAreDated(s) && ReplaysFollowWrites(s)
    ensures ReplaysFollowWrites(Step(cfg, s, a))
  {
    hide Step, CacheIsProduced, CompletedBefore, RepliesAreDated;
    var s' := Step(cfg, s, a);
    CompletedStays(cfg, s, a);
    forall i | 0 <= i < |s'.requests| && Replayed(s'.requests[i])
      ensures CompletedBefore(s', s'.requests[i].key, s'.requests[i].begun)
    {
      if i >= |s.requests| || !Replayed(s.requests[i]) {
        NewReplayFollows(cfg, s, a, i);
      }
      CompletedBeforeStays(cfg, s, a, s'.requests[i].key, s'.requests[i].begun);
    }
  }

  lemma StepKeepsDates(cfg: Settings, s: State, a: Action)
    requires RepliesAreDated(s) && TicksArePast(s)
    ensures RepliesAreDated(Step(cfg, s, a))
  {
    hide ClientLimiter.Allow;
  }

  lemma {:induction false} RunKeepsReplayOrder(cfg: Settings, s: State, actions: seq<Action>)
    requires Inv(s) && RepliesAreDated(s) && ReplaysFollowWrites(s)
    ensures var t := Run(cfg, s, actions); Inv(t) && RepliesAreDated(t) && ReplaysFollowWrites(t)
    decreases |actions|
  {
    hide Step, CacheIsProduced, ReplaysAreProduced, CompletedIsCached, MissesPrecedeWrites, TicksArePast, PhasesFit;
    hide RepliesAreDated, ReplaysFollowWrites;
    if actions != [] {
      StepKeepsProvenance(cfg, s, actions[0]);
      StepKeepsCached(cfg, s, actions[0]);
      StepKeepsTicks(cfg, s, actions[0]);
      StepKeepsOrder(cfg, s, actions[0]);
      StepKeepsPhases(cfg, s, actions[0]);
      StepKeepsReplayOrder(cfg, s, actions[0]);
      StepKeepsDates(cfg, s, actions[0]);
      RunKeepsReplayOrder(cfg, Step(cfg, s, actions[0]), actions[1..]);
    }
  }

  lemma ReachableIsOrdered(cfg: Settings, actions: seq<Action>)
    ensures var s := Run(cfg, Init(), actions); Inv(s) && RepliesAreDated(s) && ReplaysFollowWrites(s)
  {
    hide Step;
    InitIsGood();
    RunKeepsReplayOrder(cfg, Init(), actions);
  }

  /** In every interleaving a request misses the cache exactly if no completed run of its key had been written before it
      looked. */
  lemma MissIffNoneCompleted(cfg: Settings, actions: seq<Action>, i: nat)
    requires var s := Run(cfg, Init(), actions); i < |s.requests| && !s.requests[i].phase.Arrived?
    ensures var s := Run(cfg, Init(), actions);
            PastMiss(s.requests[i]) <==> !CompletedBefore(s, s.requests[i].key, s.requests[i].begun)
  {
    hide Step, CacheIsProduced, ReplaysAreProduced, CompletedIsCached, TicksArePast, PhasesFit;
    ReachableIsOrdered(cfg, actions);
  }

  /** When the requests of a key do not overlap, a request is put to the limiter, to be run, exactly if every run that was
      started before it failed. */
  lemma RunsAgainIffFailed(cfg: Settings, actions: seq<Action>, key: Key, j: nat)
    requires var s := Run(cfg, Init(), actions);
             OneAtATime(s, key) && j < |s.requests| && s.requests[j].key == key && !s.requests[j].phase.Arrived?
    ensures var s := Run(cfg, Init(), actions);
            PastMiss(s.requests[j]) <==>
            forall i :: 0 <= i < |s.requests| && s.requests[i].key == key && Granted(s.requests[i])
                        && Precedes(s.requests[i], s.requests[j]) ==>
              s.requests[i].phase == Replied(Failed)
  {
    hide Step, Run;
    MissIffNoneCompleted(cfg, actions, j);
    var s := Run(cfg, Init(), actions);
    if !PastMiss(s.requests[j]) {
      var i :| 0 <= i < |s.requests| && s.requests[i].key == key && Completed(s.requests[i])
               && s.requests[i].ended < s.requests[j].begun;
      assert Granted(s.requests[i]) && Precedes(s.requests[i], s.requests[j]);
    }
  }

  // ---- how many runs ----

  function Started(s: State, key: Key): set<nat> {
    set i | 0 <= i < |s.requests| && s.requests[i].key == key && Granted(s.requests[i])
  }

  function FailedRuns(s: State, key: Key): set<nat> {
    set i | 0 <= i < |s.requests| && s.requests[i].key == key && s.requests[i].phase == Replied(Failed)
  }

  /** The runs that have completed or are still going on. */
  function LiveRuns(s: State, key: Key): set<nat> {
    set i | 0 <= i < |s.requests| && s.requests[i].key == key
            && (Completed(s.requests[i]) || s.requests[i].phase.Admitted? || s.requests[i].phase.Ran?)
  }

  lemma AtMostOne(s: set<nat>)
    requires forall i, j :: i in s && j in s ==> i == j
    ensures |s| <= 1
  {
    if s != {} {
      var i :| i in s;
      assert s == {i};
    }
  }

  /** Two live runs cannot both be there: the later one would have found the earlier one's answer. */
  lemma OneLiveRun(s: State, key: Key, i: nat, j: nat)
    requires MissesPrecedeWrites(s) && OneAtATime(s, key) && i in LiveRuns(s, key) && j in LiveRuns(s, key)
    ensures i == j
  {
  }

  lemma RunsSplit(s: State, key: Key)
    ensures Started(s, key) == FailedRuns(s, key) + LiveRuns(s, key) && FailedRuns(s, key) !! LiveRuns(s, key)
  {
    forall i ensures i in Started(s, key) <==> i in FailedRuns(s, key) || i in LiveRuns(s, key) { }
  }

  /** The runs started for a key are the failed ones and at most one more, which has completed or is still going on. */
  lemma RunsPerKey(cfg: Settings, actions: seq<Action>, key: Key)
    requires OneAtATime(Run(cfg, Init(), actions), key)
    ensures var s := Run(cfg, Init(), actions);
            |Started(s, key)| == |FailedRuns(s, key)| + |LiveRuns(s, key)| && |LiveRuns(s, key)| <= 1
  {
    hide Step, Run, OneAtATime, Started, FailedRuns, LiveRuns, MissesPrecedeWrites, CacheIsProduced, TicksArePast;
    var s := Run(cfg, Init(), actions);
    ReachableIsOrdered(cfg, actions);
    RunsSplit(s, key);
    forall i, j | i in LiveRuns(s, key) && j in LiveRuns(s, key) ensures i == j { OneLiveRun(s, key, i, j); }
    AtMostOne(LiveRuns(s, key));
  }

  /** A run that raises is started again by the retry: after one failed request the next one of the same ticket is let
      through to the pipeline. */
  lemma CrashIsRunAgain(cfg: Settings, key: Key)
    requires cfg.maxCalls >= 2
    ensures var s := Run(cfg, Init(), [Arrive(key), Lookup(0)] + ([Check(0, 0.0), Finish(0, Values.None)] +
                                      ([Arrive(key), Lookup(1)] + [Check(1, 0.0)])));
            && |s.requests| == 2 && s.requests[0].key == s.requests[1].key == key
            && s.requests[0].phase == Replied(Failed) && s.requests[1].phase == Admitted
  {
    hide Run, Windows.After;
    var a, b, c := [Arrive(key), Lookup(0)], [Check(0, 0.0), Finish(0, Values.None)], [Arrive(key), Lookup(1)];
    RunAppend(cfg, Init(), a, b + (c + [Check(1, 0.0)]));
    var s1 := Run(cfg, Init(), a);
    RunPair(cfg, Init(), Arrive(key), Lookup(0));
    RunAppend(cfg, s1, b, c + [Check(1, 0.0)]);
    var s2 := Run(cfg, s1, b);
    RunPair(cfg, s1, Check(0, 0.0), Finish(0, Values.None));
    RunAppend(cfg, s2, c, [Check(1, 0.0)]);
    var s3 := Run(cfg, s2, c);
    RunPair(cfg, s2, Arrive(key), Lookup(1));
    RunSingle(cfg, s3, Check(1, 0.0));
  }

  lemma RunSingle(cfg: Settings, s: State, a: Action)
    ensures Run(cfg, s, [a]) == Step(cfg, s, a)
  {
    assert [a][1..] == [];
    assert Run(cfg, Step(cfg, s, a), []) == Step(cfg, s, a);
  }
}
