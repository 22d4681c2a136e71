/** Exactly when two requests for one ticket are both run to completion, over every schedule of their sections. */
module Overlap {
  import opened Values
  import opened Windows
  import opened ClientLimiter
  import opened Admission

  /** Whose turn it is (0 or 1), and how much time passes at a rate check. */
  datatype Turn = Turn(who: nat, elapsed: real)

  predicate Turns(schedule: seq<Turn>) {
    forall k :: 0 <= k < |schedule| ==> schedule[k].who < 2
  }

  /** What the pipeline does with each of the two requests, None for an exception. */
  type Runs = nat -> Option<Outcome>

  /** The `n`-th section of request `i`. */
  function Section(i: nat, n: nat, elapsed: real, runs: Runs): Action {
    if n == 0 then Lookup(i) else if n == 1 then Check(i, elapsed) else if n == 2 then Finish(i, runs(i)) else Store(i)
  }

  /** How far each request has come. */
  datatype Progress = Progress(first: nat, second: nat)

  function Of(p: Progress, i: nat): nat {
    if i == 0 then p.first else p.second
  }

  function Advance(p: Progress, i: nat): Progress {
    if i == 0 then p.(first := p.first + 1) else p.(second := p.second + 1)
  }

  /** The actions of a schedule: each turn is the next section of its request. */
  function Sections(schedule: seq<Turn>, p: Progress, runs: Runs): seq<Action> {
    if schedule == [] then []
    else [Section(schedule[0].who, Of(p, schedule[0].who), schedule[0].elapsed, runs)]
         + Sections(schedule[1..], Advance(p, schedule[0].who), runs)
  }

  function CountTurns(schedule: seq<Turn>, i: nat): nat {
    if schedule == [] then 0 else (if schedule[0].who == i then 1 else 0) + CountTurns(schedule[1..], i)
  }

  /** The next turn of request `i` comes before the other one, which has had `n` turns, has had all four of its own: the
      lookup of `i` comes before the write of the other. */
  predicate LooksBeforeWrite(schedule: seq<Turn>, i: nat, n: nat) {
    if schedule == [] then n < 4
    else if schedule[0].who == i then n < 4
    else LooksBeforeWrite(schedule[1..], i, n + 1)
  }

  // ---- the state while a schedule runs ----

  /** The phase of a request after `n` sections, if its lookup missed and the limiter lets it through. */
  function PhaseAfter(n: nat, ticket: string, run: Option<Outcome>): Phase {
    if n == 0 then Arrived
    else if n == 1 then Missed
    else if n == 2 then Admission.Admitted
    else if run.None? then Replied(Failed)
    else if n == 3 then Ran(Response(ticket, run.value))
    else Replied(Answer(Response(ticket, run.value), false))
  }

  /** The limiter turned it away. */
  predicate Refused(s: State, i: nat)
    requires i < |s.requests|
  {
    s.requests[i].phase == Replied(TooMany)
  }

  predicate RequestFits(r: Request, key: Key, n: nat, run: Option<Outcome>) {
    r.key == key && (r.phase == PhaseAfter(n, key.ticket, run) || (n >= 2 && r.phase == Replied(TooMany)) || (n >= 1 && Replayed(r)))
  }

  predicate Fits(s: State, key: Key, p: Progress, runs: Runs) {
    && |s.requests| == 2
    && RequestFits(s.requests[0], key, p.first, runs(0)) && RequestFits(s.requests[1], key, p.second, runs(1))
    && (key in s.cache <==> Completed(s.requests[0]) || Completed(s.requests[1]))
    && (Replayed(s.requests[0]) ==> Completed(s.requests[1])) && (Replayed(s.requests[1]) ==> Completed(s.requests[0]))
  }

  lemma FirstTurn(cfg: Settings, s: State, key: Key, p: Progress, runs: Runs, elapsed: real)
    requires Fits(s, key, p, runs) && p.first < 4
    ensures Fits(Step(cfg, s, Section(0, p.first, elapsed, runs)), key, Advance(p, 0), runs)
  {
    hide Allow;
  }

  lemma SecondTurn(cfg: Settings, s: State, key: Key, p: Progress, runs: Runs, elapsed: real)
    requires Fits(s, key, p, runs) && p.second < 4
    ensures Fits(Step(cfg, s, Section(1, p.second, elapsed, runs)), key, Advance(p, 1), runs)
  {
    hide Allow;
  }

  lemma TakeTurn(cfg: Settings, s: State, key: Key, p: Progress, runs: Runs, turn: Turn)
    requires Fits(s, key, p, runs) && turn.who < 2 && Of(p, turn.who) < 4
    ensures Fits(Step(cfg, s, Section(turn.who, Of(p, turn.who), turn.elapsed, runs)), key, Advance(p, turn.who), runs)
  {
    hide Fits, Section, Step;
    if turn.who == 0 { FirstTurn(cfg, s, key, p, runs, turn.elapsed); }
    else { SecondTurn(cfg, s, key, p, runs, turn.elapsed); }
  }

  /** A lookup misses unless the other request has written. */
  lemma LookupMisses(cfg: Settings, s: State, key: Key, p: Progress, runs: Runs, turn: Turn)
    requires Fits(s, key, p, runs) && turn.who < 2 && Of(p, turn.who) == 0
    ensures var s' := Step(cfg, s, Section(turn.who, 0, turn.elapsed, runs));
            && |s'.requests| == 2 && !s'.requests[turn.who].phase.Arrived?
            && (Replayed(s'.requests[turn.who]) <==> Completed(s.requests[1 - turn.who]))
  {
  }

  /** After four sections a request that was not answered from the cache has completed exactly if it was let through and
      its run succeeded. */
  lemma DoneMeans(s: State, key: Key, p: Progress, runs: Runs, i: nat)
    requires Fits(s, key, p, runs) && i < 2 && Of(p, i) >= 4
    ensures s.requests[i].phase.Replied?
    ensures Completed(s.requests[i]) <==> runs(i).Some? && !Refused(s, i) && !Replayed(s.requests[i])
  {
  }

  lemma {:induction false} RepliedStays(cfg: Settings, s: State, actions: seq<Action>, i: nat)
    requires i < |s.requests| && s.requests[i].phase.Replied?
    ensures var t := Run(cfg, s, actions); i < |t.requests| && t.requests[i] == s.requests[i]
    decreases |actions|
  {
    hide Step;
    if actions != [] {
      CompletedStays(cfg, s, actions[0]);
      RepliedStays(cfg, Step(cfg, s, actions[0]), actions[1..], i);
    }
  }

  /** In the final state `t` request `i`, whose lookup is still to come, is answered from the cache exactly if the lookup
      comes after the other's write and the other was run with success. */
  predicate Settled(t: State, schedule: seq<Turn>, p: Progress, runs: Runs, i: nat)
    requires i < 2 && |t.requests| == 2
  {
    Of(p, i) == 0 ==>
      (Replayed(t.requests[i]) <==>
         !LooksBeforeWrite(schedule, i, Of(p, 1 - i)) && runs(1 - i).Some? && !Refused(t, 1 - i))
  }

  lemma SettledEarlier(cfg: Settings, s: State, key: Key, p: Progress, schedule: seq<Turn>, runs: Runs, t: State, i: nat)
    requires Fits(s, key, p, runs) && schedule != [] && schedule[0].who < 2 && i < 2 && Of(p, schedule[0].who) < 4
    requires var turn := schedule[0];
             t == Run(cfg, Step(cfg, s, Section(turn.who, Of(p, turn.who), turn.elapsed, runs)),
                      Sections(schedule[1..], Advance(p, turn.who), runs))
    requires |t.requests| == 2 && Fits(t, key, Progress(4, 4), runs)
    requires Settled(t, schedule[1..], Advance(p, schedule[0].who), runs, i)
    ensures Settled(t, schedule, p, runs, i)
  {
    hide Fits, Run, Step, Sections, RequestFits, PhaseAfter;
    var turn := schedule[0];
    var s' := Step(cfg, s, Section(turn.who, Of(p, turn.who), turn.elapsed, runs));
    var rest := Sections(schedule[1..], Advance(p, turn.who), runs);
    if turn.who == i && Of(p, i) == 0 {
      LookupMisses(cfg, s, key, p, runs, turn);
      TakeTurn(cfg, s, key, p, runs, turn);
      CompletedStays(cfg, s, Section(i, 0, turn.elapsed, runs));
      FitsHasTwo(s, key, p, runs);
      if Replayed(s'.requests[i]) {
        RepliedStays(cfg, s', rest, i);
        RepliedStays(cfg, s', rest, 1 - i);
        LateOther(s, key, p, runs, i);
      } else {
        NotReplayedLater(cfg, s', rest, i);
        if Of(p, 1 - i) >= 4 {
          DoneMeans(s, key, p, runs, 1 - i);
          RepliedStays(cfg, s', rest, 1 - i);
          OtherNotReplayed(s, key, p, runs, i);
        }
      }
    }
  }

  lemma FitsHasTwo(s: State, key: Key, p: Progress, runs: Runs)
    requires Fits(s, key, p, runs)
    ensures |s.requests| == 2
  {
  }

  /** A completed request has had all its sections. */
  lemma LateOther(s: State, key: Key, p: Progress, runs: Runs, i: nat)
    requires Fits(s, key, p, runs) && i < 2 && Completed(s.requests[1 - i])
    ensures Of(p, 1 - i) >= 4 && runs(1 - i).Some? && !Refused(s, 1 - i)
  {
  }

  /** While one request has not looked, the other cannot have been answered from the cache. */
  lemma OtherNotReplayed(s: State, key: Key, p: Progress, runs: Runs, i: nat)
    requires Fits(s, key, p, runs) && i < 2 && Of(p, i) == 0
    ensures !Replayed(s.requests[1 - i])
  {
  }

  lemma {:induction false} NotReplayedLater(cfg: Settings, s: State, actions: seq<Action>, i: nat)
    requires i < |s.requests| && !s.requests[i].phase.Arrived? && !Replayed(s.requests[i])
    ensures var t := Run(cfg, s, actions); i < |t.requests| && !Replayed(t.requests[i])
    decreases |actions|
  {
    hide Step;
    if actions != [] {
      PastMissStays(cfg, s, actions[0], i);
      NotReplayedLater(cfg, Step(cfg, s, actions[0]), actions[1..], i);
    }
  }

  lemma PastMissStays(cfg: Settings, s: State, a: Action, i: nat)
    requires i < |s.requests| && !s.requests[i].phase.Arrived? && !Replayed(s.requests[i])
    ensures var t := Step(cfg, s, a); i < |t.requests| && !t.requests[i].phase.Arrived? && !Replayed(t.requests[i])
  {
    hide Allow;
  }

  /** A whole schedule keeps the requests in step. */
  lemma {:induction false} ScheduleFits(cfg: Settings, s: State, key: Key, p: Progress, schedule: seq<Turn>, runs: Runs)
    requires Fits(s, key, p, runs) && Turns(schedule)
    requires forall i :: 0 <= i < 2 ==> Of(p, i) + CountTurns(schedule, i) == 4
    ensures var t := Run(cfg, s, Sections(schedule, p, runs));
            && Fits(t, key, Progress(4, 4), runs) && |t.requests| == 2
            && Settled(t, schedule, p, runs, 0) && Settled(t, schedule, p, runs, 1)
    decreases |schedule|
  {
    hide Fits, Section, Step, Settled, LooksBeforeWrite;
    if schedule == [] {
      assert Of(p, 0) == 4 && Of(p, 1) == 4;
      assert p == Progress(4, 4);
      FitsHasTwo(s, key, p, runs);
      SettledAtEnd(s, p, runs);
    } else {
      var turn, rest := schedule[0], schedule[1..];
      var i := turn.who;
      var a := Section(i, Of(p, i), turn.elapsed, runs);
      assert Sections(schedule, p, runs)[1..] == Sections(rest, Advance(p, i), runs);
      CountsShrink(schedule, p);
      TakeTurn(cfg, s, key, p, runs, turn);
      ScheduleFits(cfg, Step(cfg, s, a), key, Advance(p, i), rest, runs);
      var t := Run(cfg, s, Sections(schedule, p, runs));
      SettledEarlier(cfg, s, key, p, schedule, runs, t, 0);
      SettledEarlier(cfg, s, key, p, schedule, runs, t, 1);
    }
  }

  lemma SettledAtEnd(t: State, p: Progress, runs: Runs)
    requires Of(p, 0) == 4 && Of(p, 1) == 4 && |t.requests| == 2
    ensures Settled(t, [], p, runs, 0) && Settled(t, [], p, runs, 1)
  {
  }

  lemma CountsShrink(schedule: seq<Turn>, p: Progress)
    requires schedule != [] && Turns(schedule) && forall i :: 0 <= i < 2 ==> Of(p, i) + CountTurns(schedule, i) == 4
    ensures Turns(schedule[1..]) && Of(p, schedule[0].who) < 4
    ensures forall i :: 0 <= i < 2 ==> Of(Advance(p, schedule[0].who), i) + CountTurns(schedule[1..], i) == 4
  {
    var who := schedule[0].who;
    assert who < 2;
    forall i | 0 <= i < 2 ensures Of(Advance(p, who), i) + CountTurns(schedule[1..], i) == 4 {
      assert Of(p, i) + CountTurns(schedule, i) == 4;
    }
    assert Of(p, who) + CountTurns(schedule, who) == 4;
  }

  lemma TwoArrive(cfg: Settings, key: Key, runs: Runs)
    ensures Fits(Run(cfg, Init(), [Arrive(key), Arrive(key)]), key, Progress(0, 0), runs)
  {
    hide Run;
    RunPair(cfg, Init(), Arrive(key), Arrive(key));
  }

  /** For every interleaving of the four sections of two requests for one ticket and every limiter: both run to completion
      exactly if the limiter turns neither away, both runs succeed and each lookup comes before the other's write. */
  lemma BothCompleteIffOverlapping(cfg: Settings, key: Key, schedule: seq<Turn>, runs: Runs)
    requires Turns(schedule) && CountTurns(schedule, 0) == 4 && CountTurns(schedule, 1) == 4
    ensures var s := Run(cfg, Run(cfg, Init(), [Arrive(key), Arrive(key)]), Sections(schedule, Progress(0, 0), runs));
            && |s.requests| == 2
            && (Completed(s.requests[0]) && Completed(s.requests[1]) <==>
                  && !Refused(s, 0) && !Refused(s, 1) && runs(0).Some? && runs(1).Some?
                  && LooksBeforeWrite(schedule, 0, 0) && LooksBeforeWrite(schedule, 1, 0))
  {
    hide Fits, Run, LooksBeforeWrite, Sections, CountTurns;
    TwoArrive(cfg, key, runs);
    var s := Run(cfg, Init(), [Arrive(key), Arrive(key)]);
    var p := Progress(0, 0);
    assert forall i :: 0 <= i < 2 ==> Of(p, i) + CountTurns(schedule, i) == 4;
    ScheduleFits(cfg, s, key, p, schedule, runs);
    var t := Run(cfg, s, Sections(schedule, p, runs));
    DoneMeans(t, key, Progress(4, 4), runs, 0);
    DoneMeans(t, key, Progress(4, 4), runs, 1);
  }

  // ---- room in the limiter, before the fact ----

  function Elapsed(turn: Turn): real {
    if turn.elapsed > 0.0 then turn.elapsed else 0.0
  }

  /** The time that passes at the later of the two rate checks. */
  function BetweenChecks(schedule: seq<Turn>, p: Progress): real {
    if schedule == [] then 0.0
    else
      var i := schedule[0].who;
      if i < 2 && Of(p, i) == 1 && Of(p, 1 - i) >= 2 then Elapsed(schedule[0])
      else BetweenChecks(schedule[1..], Advance(p, i))
  }

  /** An empty limiter has room for both: two calls per window, or one and a window between the checks. */
  predicate Room(cfg: Settings, between: real) {
    cfg.maxCalls >= 2 || (cfg.maxCalls == 1 && between >= cfg.window)
  }

  predicate Checked(p: Progress, i: nat) {
    Of(p, i) >= 2
  }

  predicate NoReplay(s: State) {
    |s.requests| == 2 && !Replayed(s.requests[0]) && !Replayed(s.requests[1])
  }

  /** The client's list while no request has been answered from the cache: empty before the first check, and after it the
      time of that check if the limiter allows any call. */
  predicate Metered(cfg: Settings, s: State, key: Key, p: Progress) {
    && |s.requests| == 2
    && (!Checked(p, 0) && !Checked(p, 1) ==> ListOf(s.limits.stored, key.client) == [])
    && (Checked(p, 0) && !Checked(p, 1) ==> OneChecked(cfg, s, key, 0))
    && (Checked(p, 1) && !Checked(p, 0) ==> OneChecked(cfg, s, key, 1))
  }

  predicate OneChecked(cfg: Settings, s: State, key: Key, i: nat)
    requires i < |s.requests|
  {
    && (Refused(s, i) <==> cfg.maxCalls < 1)
    && ListOf(s.limits.stored, key.client) == if cfg.maxCalls < 1 then [] else [s.now]
  }

  lemma AfterOne(t: real, cutoff: real)
    ensures After([t], cutoff) == (if t > cutoff then [t] else []) && After([], cutoff) == []
  {
    assert [t][1..] == [];
    assert After([], cutoff) == [];
  }

  /** A rate check of one of two requests: the first always finds the list empty. */
  lemma RoomNeedsOne(cfg: Settings, between: real)
    ensures Room(cfg, between) ==> cfg.maxCalls >= 1
  {
  }

  /** What the limiter answers a client whose list is empty, or holds the time of its one call. */
  lemma AllowOne(l: Limits, cfg: Settings, client: string, before: real, now: real)
    ensures var (l', ok) := Allow(l, cfg.maxCalls, cfg.window, client, now);
            && (ListOf(l.stored, client) == [] ==>
                  (ok <==> cfg.maxCalls >= 1) && ListOf(l'.stored, client) == if cfg.maxCalls >= 1 then [now] else [])
            && (cfg.maxCalls >= 1 && ListOf(l.stored, client) == [before] ==> (ok <==> Room(cfg, now - before)))
  {
    AfterOne(before, now - cfg.window);
  }

  lemma CheckTurn(cfg: Settings, s: State, key: Key, p: Progress, runs: Runs, turn: Turn)
    requires Fits(s, key, p, runs) && Metered(cfg, s, key, p) && NoReplay(s) && turn.who < 2 && Of(p, turn.who) == 1
    ensures var i := turn.who;
            var t := Step(cfg, s, Section(i, 1, turn.elapsed, runs));
            && |t.requests| == 2 && NoReplay(t)
            && (!Checked(p, 1 - i) ==> OneChecked(cfg, t, key, i))
            && (Checked(p, 1 - i) ==>
                  (!Refused(t, 0) && !Refused(t, 1) <==> Room(cfg, Elapsed(turn))))
  {
    hide Allow, ListOf, Room;
    AllowOne(s.limits, cfg, key.client, s.now, s.now + Elapsed(turn));
    RoomNeedsOne(cfg, Elapsed(turn));
  }

  /** Any other turn leaves the limiter and the refusals alone. */
  lemma OtherTurn(cfg: Settings, s: State, key: Key, p: Progress, runs: Runs, turn: Turn)
    requires Fits(s, key, p, runs) && turn.who < 2 && Of(p, turn.who) != 1
    ensures var t := Step(cfg, s, Section(turn.who, Of(p, turn.who), turn.elapsed, runs));
            && |t.requests| == 2 && t.limits == s.limits && t.now == s.now
            && (Refused(t, 0) <==> Refused(s, 0)) && (Refused(t, 1) <==> Refused(s, 1))
  {
    hide Allow;
  }

  lemma TurnMeters(cfg: Settings, s: State, key: Key, p: Progress, runs: Runs, turn: Turn)
    requires Fits(s, key, p, runs) && Metered(cfg, s, key, p) && NoReplay(s) && turn.who < 2
    ensures Metered(cfg, Step(cfg, s, Section(turn.who, Of(p, turn.who), turn.elapsed, runs)), key, Advance(p, turn.who))
  {
    hide Fits, Step, Section, Refused, NoReplay;
    if Of(p, turn.who) == 1 { CheckTurn(cfg, s, key, p, runs, turn); }
    else { OtherTurn(cfg, s, key, p, runs, turn); }
  }

  /** Once both have been checked, the refusals stand. */
  lemma {:induction false} RefusalsStand(cfg: Settings, s: State, key: Key, p: Progress, schedule: seq<Turn>, runs: Runs)
    requires Fits(s, key, p, runs) && Turns(schedule) && Checked(p, 0) && Checked(p, 1)
    requires forall i :: 0 <= i < 2 ==> Of(p, i) + CountTurns(schedule, i) == 4
    ensures var t := Run(cfg, s, Sections(schedule, p, runs));
            |s.requests| == |t.requests| == 2 && (Refused(t, 0) <==> Refused(s, 0)) && (Refused(t, 1) <==> Refused(s, 1))
    decreases |schedule|
  {
    hide Fits, Step, Section, Refused;
    FitsHasTwo(s, key, p, runs);
    if schedule != [] {
      var turn := schedule[0];
      var p' := Advance(p, turn.who);
      assert Sections(schedule, p, runs)[1..] == Sections(schedule[1..], p', runs);
      CountsShrink(schedule, p);
      TakeTurn(cfg, s, key, p, runs, turn);
      OtherTurn(cfg, s, key, p, runs, turn);
      RefusalsStand(cfg, Step(cfg, s, Section(turn.who, Of(p, turn.who), turn.elapsed, runs)), key, p', schedule[1..], runs);
    }
  }

  /** If neither request ends up answered from the cache, neither is turned away exactly if there is room for both. */
  lemma {:induction false} ScheduleMeters(cfg: Settings, s: State, key: Key, p: Progress, schedule: seq<Turn>, runs: Runs)
    requires Fits(s, key, p, runs) && Metered(cfg, s, key, p) && Turns(schedule) && !(Checked(p, 0) && Checked(p, 1))
    requires forall i :: 0 <= i < 2 ==> Of(p, i) + CountTurns(schedule, i) == 4
    requires NoReplay(Run(cfg, s, Sections(schedule, p, runs)))
    ensures var t := Run(cfg, s, Sections(schedule, p, runs));
            !Refused(t, 0) && !Refused(t, 1) <==> Room(cfg, BetweenChecks(schedule, p))
    decreases |schedule|
  {
    hide Fits, Step, Section, Refused, Metered, Room;
    var turn, rest := schedule[0], schedule[1..];
    var i, p' := turn.who, Advance(p, turn.who);
    var s' := Step(cfg, s, Section(i, Of(p, i), turn.elapsed, runs));
    assert Sections(schedule, p, runs)[1..] == Sections(rest, p', runs);
    CountsShrink(schedule, p);
    NoReplayYet(cfg, s, key, p, runs, Sections(schedule, p, runs));
    TakeTurn(cfg, s, key, p, runs, turn);
    TurnMeters(cfg, s, key, p, runs, turn);
    if Of(p, i) == 1 && Checked(p, 1 - i) {
      CheckTurn(cfg, s, key, p, runs, turn);
      RefusalsStand(cfg, s', key, p', rest, runs);
    } else {
      ScheduleMeters(cfg, s', key, p', rest, runs);
    }
  }

  lemma NoReplayYet(cfg: Settings, s: State, key: Key, p: Progress, runs: Runs, actions: seq<Action>)
    requires Fits(s, key, p, runs) && NoReplay(Run(cfg, s, actions))
    ensures NoReplay(s)
  {
    hide Run, Step;
    if Replayed(s.requests[0]) { RepliedStays(cfg, s, actions, 0); }
    if Replayed(s.requests[1]) { RepliedStays(cfg, s, actions, 1); }
  }

  lemma TwoArriveMetered(cfg: Settings, key: Key)
    ensures Metered(cfg, Run(cfg, Init(), [Arrive(key), Arrive(key)]), key, Progress(0, 0))
  {
    hide Run;
    RunPair(cfg, Init(), Arrive(key), Arrive(key));
  }

  /** The same, told from the schedule alone: both run to completion exactly if both runs succeed, each lookup comes before
      the other's write, and the limiter allows two calls per window, or one with a window between the checks. */
  lemma BothCompleteIffRoom(cfg: Settings, key: Key, schedule: seq<Turn>, runs: Runs)
    requires Turns(schedule) && CountTurns(schedule, 0) == 4 && CountTurns(schedule, 1) == 4
    ensures var s := Run(cfg, Run(cfg, Init(), [Arrive(key), Arrive(key)]), Sections(schedule, Progress(0, 0), runs));
            && |s.requests| == 2
            && (Completed(s.requests[0]) && Completed(s.requests[1]) <==>
                  && runs(0).Some? && runs(1).Some?
                  && LooksBeforeWrite(schedule, 0, 0) && LooksBeforeWrite(schedule, 1, 0)
                  && Room(cfg, BetweenChecks(schedule, Progress(0, 0))))
  {
    hide Fits, Run, LooksBeforeWrite, Sections, CountTurns, Metered, Room, BetweenChecks, Refused;
    var s := Run(cfg, Init(), [Arrive(key), Arrive(key)]);
    var p := Progress(0, 0);
    TwoArrive(cfg, key, runs);
    TwoArriveMetered(cfg, key);
    assert forall i :: 0 <= i < 2 ==> Of(p, i) + CountTurns(schedule, i) == 4;
    BothCompleteIffOverlapping(cfg, key, schedule, runs);
    ScheduleFits(cfg, s, key, p, schedule, runs);
    var t := Run(cfg, s, Sections(schedule, p, runs));
    if LooksBeforeWrite(schedule, 0, 0) && LooksBeforeWrite(schedule, 1, 0) {
      assert NoReplay(t);
      ScheduleMeters(cfg, s, key, p, schedule, runs);
    }
  }
}
