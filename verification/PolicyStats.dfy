/** The statistics a policy accumulates (experiments/memory_augmented_v2.py, memory/policy_store.py), as functions of the
    tickets that contributed to it. */
module PolicyStats {
  import opened Ordering

  const MAX_CREATED_FROM: nat := 50

  /** One resolved ticket's contribution. `restart` says that reading the existing policy failed, so that the policy was
      started over. */
  datatype Contribution = Contribution(intent: string, workflow: seq<seq<string>>, ticket: string, replans: nat, restart: bool)

  /** The running part of a policy. */
  datatype Stats = Stats(usage: nat, averageCalls: real, averageReplans: real, confidence: real, createdFrom: seq<string>)

  function Size(workflow: seq<seq<string>>): nat {
    if workflow == [] then 0 else |workflow[0]| + Size(workflow[1..])
  }

  function RunningAverage(oldAverage: real, oldCount: nat, value: real): real {
    (oldAverage * oldCount as real + value) / (oldCount + 1) as real
  }

  function Min(x: real, y: real): real {
    if x <= y then x else y
  }

  function LastOf(s: seq<string>, n: nat): (r: seq<string>)
    ensures |r| == if |s| <= n then |s| else n
  {
    if |s| <= n then s else s[|s| - n..]
  }

  /** The list before it is cut. */
  function Longer(createdFrom: seq<string>, ticket: string): seq<string> {
    if ticket in createdFrom then createdFrom else createdFrom + [ticket]
  }

  function Credit(createdFrom: seq<string>, ticket: string): seq<string> {
    LastOf(Longer(createdFrom, ticket), MAX_CREATED_FROM)
  }

  function First(c: Contribution): Stats {
    Stats(1, Size(c.workflow) as real, c.replans as real, 0.5, [c.ticket])
  }

  function Reinforce(s: Stats, c: Contribution): Stats {
    Stats(s.usage + 1,
          RunningAverage(s.averageCalls, s.usage, Size(c.workflow) as real),
          RunningAverage(s.averageReplans, s.usage, c.replans as real),
          Min(1.0, s.confidence + 0.05),
          Credit(s.createdFrom, c.ticket))
  }

  // ---- what the running values stand for ----

  function TotalReplans(cs: seq<Contribution>): nat {
    if cs == [] then 0 else TotalReplans(cs[..|cs| - 1]) + cs[|cs| - 1].replans
  }

  function Tickets(cs: seq<Contribution>): (r: seq<string>)
    ensures |r| == |cs| && forall k :: 0 <= k < |r| ==> r[k] == cs[k].ticket
  {
    seq(|cs|, k requires 0 <= k < |cs| => cs[k].ticket)
  }

  /** The contributors that remain credited. */
  predicate Credited(createdFrom: seq<string>, tickets: seq<string>) {
    && NoDup(createdFrom) && |createdFrom| <= MAX_CREATED_FROM
    && (forall t :: t in createdFrom ==> t in tickets)
    && (NoDup(tickets) ==> createdFrom == LastOf(tickets, MAX_CREATED_FROM))
  }

  /** The statistics are exact: counts, means, confidence and contributors of `cs`, all with the one workflow. */
  predicate Exact(s: Stats, cs: seq<Contribution>, size: nat) {
    && s.usage == |cs| >= 1
    && s.averageCalls == size as real
    && s.averageReplans == TotalReplans(cs) as real / |cs| as real
    && s.confidence == Min(1.0, 0.5 + 0.05 * (|cs| - 1) as real)
    && Credited(s.createdFrom, Tickets(cs))
  }

  /** What exact statistics say in numbers: the mean number of replans, and confidence from a half in steps of a twentieth
      up to one. */
  lemma ExactMeans(s: Stats, cs: seq<Contribution>, size: nat)
    requires Exact(s, cs, size)
    ensures s.usage == |cs| && s.averageReplans * |cs| as real == TotalReplans(cs) as real
    ensures s.confidence == if |cs| >= 11 then 1.0 else 0.5 + 0.05 * (|cs| - 1) as real
  {
    hide TotalReplans, Tickets, Credited, Min;
    var n, total := |cs| as real, TotalReplans(cs) as real;
    assert s.averageReplans == total / n;
    QuotientTimes(total, n);
    Steps(|cs|);
  }

  /** Of tickets with distinct ids the last fifty are credited. */
  lemma FiftyAreCredited(s: Stats, cs: seq<Contribution>, size: nat)
    requires Exact(s, cs, size)
    ensures |s.createdFrom| <= 50 && NoDup(s.createdFrom)
    ensures NoDup(Tickets(cs)) ==> s.createdFrom == if |cs| <= 50 then Tickets(cs) else Tickets(cs)[|cs| - 50..]
  {
    hide NoDup, TotalReplans;
  }

  lemma QuotientTimes(x: real, y: real)
    requires y > 0.0
    ensures x / y * y == x
  {
  }

  lemma Steps(n: nat)
    ensures Min(1.0, 0.5 + 0.05 * (n - 1) as real) == if n >= 11 then 1.0 else 0.5 + 0.05 * (n - 1) as real
  {
  }

  lemma MeanStep(total: nat, n: nat, value: nat)
    requires n >= 1
    ensures RunningAverage(total as real / n as real, n, value as real) == (total + value) as real / (n + 1) as real
  {
    var mean := total as real / n as real;
    assert mean * n as real == total as real;
  }

  lemma ConstantMean(size: nat, n: nat)
    requires n >= 1
    ensures RunningAverage(size as real, n, size as real) == size as real
  {
    assert size as real * n as real + size as real == size as real * (n + 1) as real;
  }

  lemma FirstIsExact(c: Contribution)
    ensures Exact(First(c), [c], Size(c.workflow))
  {
    assert TotalReplans([]) == 0;
    assert [c][..0] == [];
    assert Tickets([c]) == [c.ticket];
  }

  lemma NoDupInit(s: seq<string>, t: string)
    requires NoDup(s + [t])
    ensures NoDup(s) && t !in s
  {
    var all := s + [t];
    forall i | 0 <= i < |s| ensures s[i] == all[i] && all[i] != all[|s|] { }
  }

  lemma NoDupGrows(s: seq<string>, t: string)
    requires NoDup(s) && t !in s
    ensures NoDup(s + [t])
  {
    var all := s + [t];
    forall i, j | 0 <= i < j < |all| ensures all[i] != all[j] { if j == |s| { assert all[i] == s[i]; } }
  }

  lemma LastKeepsNoDup(s: seq<string>, n: nat)
    requires NoDup(s)
    ensures NoDup(LastOf(s, n))
  {
    var r, k := LastOf(s, n), |s| - |LastOf(s, n)|;
    forall i, j | 0 <= i < j < |r| ensures r[i] != r[j] { assert r[i] == s[k + i] && r[j] == s[k + j]; }
  }

  lemma LastKeepsMembers(s: seq<string>, n: nat, t: string)
    requires t in LastOf(s, n)
    ensures t in s
  {
    var r := LastOf(s, n);
    var i :| 0 <= i < |r| && r[i] == t;
    assert t == s[|s| - |r| + i];
  }

  /** Cutting before adding makes no difference to the last `n`. */
  lemma LastOfLast(s: seq<string>, t: string, n: nat)
    ensures LastOf(LastOf(s, n) + [t], n) == LastOf(s + [t], n)
  {
    if |s| > n {
      var cut := s[|s| - n..];
      assert (cut + [t])[1..] == (s + [t])[|s| + 1 - n..];
    }
  }

  lemma CreditIsNoDup(createdFrom: seq<string>, t: string)
    requires NoDup(createdFrom)
    ensures NoDup(Credit(createdFrom, t))
  {
    hide NoDup, LastOf;
    if t !in createdFrom { NoDupGrows(createdFrom, t); }
    LastKeepsNoDup(Longer(createdFrom, t), MAX_CREATED_FROM);
  }

  lemma CreditNamesTickets(createdFrom: seq<string>, tickets: seq<string>, t: string)
    requires forall x :: x in createdFrom ==> x in tickets
    ensures forall x :: x in Credit(createdFrom, t) ==> x in tickets + [t]
  {
    hide LastOf;
    forall x | x in Credit(createdFrom, t) ensures x in tickets + [t] {
      LastKeepsMembers(Longer(createdFrom, t), MAX_CREATED_FROM, x);
    }
  }

  /** The newest contributor is credited. */
  lemma CreditIncludes(createdFrom: seq<string>, t: string)
    requires |createdFrom| <= MAX_CREATED_FROM
    ensures t in Credit(createdFrom, t)
  {
    if t !in createdFrom {
      var r := Credit(createdFrom, t);
      assert r[|r| - 1] == t;
    }
  }

  lemma CreditStays(createdFrom: seq<string>, tickets: seq<string>, t: string)
    requires Credited(createdFrom, tickets)
    ensures Credited(Credit(createdFrom, t), tickets + [t])
  {
    hide NoDup, LastOf;
    CreditIsNoDup(createdFrom, t);
    CreditNamesTickets(createdFrom, tickets, t);
    if NoDup(tickets + [t]) {
      NoDupInit(tickets, t);
      LastOfLast(tickets, t, MAX_CREATED_FROM);
    }
  }

  /** One more contribution keeps the statistics exact. */
  lemma ReinforceIsExact(s: Stats, cs: seq<Contribution>, c: Contribution)
    requires Exact(s, cs, Size(c.workflow))
    ensures Exact(Reinforce(s, c), cs + [c], Size(c.workflow))
  {
    hide Credited, Credit, RunningAverage, Size, LastOf;
    assert (cs + [c])[..|cs|] == cs;
    assert Tickets(cs + [c]) == Tickets(cs) + [c.ticket];
    MeanStep(TotalReplans(cs), |cs|, c.replans);
    ConstantMean(Size(c.workflow), |cs|);
    CreditStays(s.createdFrom, Tickets(cs), c.ticket);
  }
}
