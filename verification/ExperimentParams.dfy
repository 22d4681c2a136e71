/** The URL state of the experiment page (dashboard/src/features/experiments/search-params.ts): lists of names from a
    fixed choice, left out of the URL when they have the same members as the default. */
module ExperimentParams {
  import opened Values
  import opened Ordering
  import opened SearchParams
  import Csv

  /** The names allowed and the default selection. */
  datatype Names = Names(options: seq<string>, default: seq<string>)

  datatype Params = Params(arms: seq<string>, failureRates: seq<string>, ablationRate: string)

  datatype Url = Url(arms: Option<string>, failureRates: Option<string>, ablationRate: Option<string>)

  datatype Choices = Choices(arms: Names, rates: Names, ablation: Choice)

  predicate AllIn(parts: seq<string>, options: seq<string>) {
    forall k :: 0 <= k < |parts| ==> parts[k] in options
  }

  predicate SameMembers(a: seq<string>, b: seq<string>) {
    |a| == |b| && AllIn(a, b)
  }

  /** One foreign name spoils the whole list. */
  function ReadNames(text: Option<string>, n: Names): seq<string> {
    if text.Some? && AllIn(ParseList(text.value), n.options) then ParseList(text.value) else n.default
  }

  function WriteNames(v: seq<string>, n: Names): Option<string> {
    if SameMembers(v, n.default) then None else Some(Csv.Join(v, ','))
  }

  function Parse(c: Choices, u: Url): Params {
    Params(ReadNames(u.arms, c.arms), ReadNames(u.failureRates, c.rates),
           if u.ablationRate.Some? && u.ablationRate.value in c.ablation.options then u.ablationRate.value else c.ablation.default)
  }

  method Build(c: Choices, v: Params) returns (u: Url)
    ensures u.arms == WriteNames(v.arms, c.arms) && u.failureRates == WriteNames(v.failureRates, c.rates)
    ensures u.ablationRate == if v.ablationRate != c.ablation.default then Some(v.ablationRate) else None
  {
    u := Url(None, None, None);
    if !SameMembers(v.arms, c.arms.default) { u := u.(arms := Some(Csv.Join(v.arms, ','))); }
    if !SameMembers(v.failureRates, c.rates.default) { u := u.(failureRates := Some(Csv.Join(v.failureRates, ','))); }
    if v.ablationRate != c.ablation.default { u := u.(ablationRate := Some(v.ablationRate)); }
  }

  /** The option names are clean and the default is some of them, without repetition. */
  predicate GoodNames(n: Names) {
    Clean(n.options) && AllIn(n.default, n.options) && NoDup(n.default)
  }

  lemma AllInIsClean(parts: seq<string>, options: seq<string>)
    requires AllIn(parts, options) && Clean(options)
    ensures Clean(parts)
  {
    forall k | 0 <= k < |parts| ensures parts[k] != "" && ',' !in parts[k] {
      var i :| 0 <= i < |options| && options[i] == parts[k];
    }
  }

  lemma ReadAfterWrite(v: seq<string>, n: Names)
    requires GoodNames(n) && AllIn(v, n.options)
    ensures ReadNames(WriteNames(v, n), n) == if SameMembers(v, n.default) then n.default else v
  {
    hide ParseList, Csv.Join, Clean;
    AllInIsClean(v, n.options);
    ListRoundTrip(v);
  }

  lemma {:induction false} NoDupSize(s: seq<string>)
    requires NoDup(s)
    ensures |Elements(s)| == |s|
  {
    if s != [] {
      var n := |s| - 1;
      NoDupSize(s[..n]);
      assert Elements(s) == Elements(s[..n]) + {s[n]};
      assert s[n] !in Elements(s[..n]);
    }
  }

  lemma {:induction false} NoDupOnce(s: seq<string>)
    requires NoDup(s)
    ensures forall x :: multiset(s)[x] == if x in s then 1 else 0
  {
    if s != [] {
      var n := |s| - 1;
      assert s == s[..n] + [s[n]];
      NoDupOnce(s[..n]);
      assert s[n] !in s[..n];
    }
  }

  lemma FullSubset(a: set<string>, b: set<string>)
    requires a <= b && |a| >= |b|
    ensures a == b
  {
    assert |b - a| == |b| - |a|;
    assert b == a + (b - a);
  }

  lemma TwiceCounts(s: seq<string>, i: nat, j: nat)
    requires i < j < |s| && s[i] == s[j]
    ensures multiset(s)[s[i]] >= 2
  {
    var rest := s[..j] + s[j + 1..];
    assert s == s[..j] + [s[j]] + s[j + 1..];
    assert rest[i] == s[i];
    assert multiset(s) == multiset(rest) + multiset{s[j]};
    assert s[i] in multiset(rest);
  }

  /** Among lists with the same members as a repetition-free one, those without repetition are its rearrangements. */
  lemma RearrangedIfNoDup(v: seq<string>, default: seq<string>)
    requires NoDup(default) && SameMembers(v, default)
    ensures multiset(default) == multiset(v) <==> NoDup(v)
  {
    NoDupOnce(default);
    if NoDup(v) {
      NoDupOnce(v);
      NoDupSize(v);
      NoDupSize(default);
      FullSubset(Elements(v), Elements(default));
      assert forall x :: x in v <==> x in Elements(v);
      assert forall x :: x in default <==> x in Elements(default);
    } else {
      var i, j :| 0 <= i < j < |v| && v[i] == v[j];
      TwiceCounts(v, i, j);
    }
  }

  /** A list comes back up to order exactly when it has no repetition or differs in members from the default: because
      `sameMembers` does not count, three times one name turns into the three default names. */
  lemma NamesSurvive(v: seq<string>, n: Names)
    requires GoodNames(n) && AllIn(v, n.options)
    ensures multiset(ReadNames(WriteNames(v, n), n)) == multiset(v) <==> !SameMembers(v, n.default) || NoDup(v)
    ensures ReadNames(WriteNames(v, n), n) == v <==> !SameMembers(v, n.default) || v == n.default
  {
    hide ReadNames, WriteNames;
    ReadAfterWrite(v, n);
    if SameMembers(v, n.default) { RearrangedIfNoDup(v, n.default); }
  }

  lemma ReadIsAllowed(text: Option<string>, n: Names)
    requires GoodNames(n)
    ensures AllIn(ReadNames(text, n), n.options)
  {
  }

  predicate Survives(v: seq<string>, n: Names) {
    !SameMembers(v, n.default) || NoDup(v)
  }

  /** Parsing, building and parsing again gives the same selections up to order exactly when the URL does not repeat
      names in a list that has the same members as the default; the ablation rate always survives. */
  lemma ParseBuildParse(c: Choices, url: Url, u: Url)
    requires GoodNames(c.arms) && GoodNames(c.rates) && c.ablation.default in c.ablation.options
    requires var v := Parse(c, url);
             && u.arms == WriteNames(v.arms, c.arms) && u.failureRates == WriteNames(v.failureRates, c.rates)
             && u.ablationRate == if v.ablationRate != c.ablation.default then Some(v.ablationRate) else None
    ensures var v, v' := Parse(c, url), Parse(c, u);
            && v'.ablationRate == v.ablationRate
            && (multiset(v'.arms) == multiset(v.arms) <==> Survives(v.arms, c.arms))
            && (multiset(v'.failureRates) == multiset(v.failureRates) <==> Survives(v.failureRates, c.rates))
  {
    hide ReadNames, WriteNames, GoodNames;
    var v := Parse(c, url);
    ReadIsAllowed(url.arms, c.arms);
    ReadIsAllowed(url.failureRates, c.rates);
    NamesSurvive(v.arms, c.arms);
    NamesSurvive(v.failureRates, c.rates);
  }

  // ---- the names of the experiment page ----

  const ARMS := Names(["memoryless", "static_react", "memory_augmented", "v2_full", "policy_memory"],
                      ["memory_augmented", "v2_full", "policy_memory"])

  const RATES := Names(["0.0", "0.3", "0.7"], ["0.0", "0.3", "0.7"])

  predicate IsClean(s: string) {
    s != "" && ',' !in s
  }

  lemma LongNamesAreClean()
    ensures IsClean("memoryless") && IsClean("static_react")
  {
  }

  lemma MemoryNamesAreClean()
    ensures IsClean("memory_augmented") && IsClean("policy_memory")
  {
  }

  lemma ShortNamesAreClean()
    ensures IsClean("v2_full") && IsClean("0.0") && IsClean("0.3") && IsClean("0.7")
  {
  }

  lemma ArmsAreGood()
    ensures GoodNames(ARMS)
  {
    LongNamesAreClean();
    MemoryNamesAreClean();
    ShortNamesAreClean();
    assert ARMS.options[2] == ARMS.default[0] && ARMS.options[3] == ARMS.default[1] && ARMS.options[4] == ARMS.default[2];
    assert |ARMS.default[0]| == 16 && |ARMS.default[1]| == 7 && |ARMS.default[2]| == 13;
    forall k | 0 <= k < |ARMS.options| ensures IsClean(ARMS.options[k]) { hide IsClean; }
  }

  lemma RatesAreGood()
    ensures GoodNames(RATES)
  {
    ShortNamesAreClean();
    assert "0.0"[2] == '0' && "0.3"[2] == '3' && "0.7"[2] == '7';
    forall k | 0 <= k < |RATES.options| ensures IsClean(RATES.options[k]) { hide IsClean; }
  }

  const PAGE := Choices(ARMS, RATES, Choice(["0.0", "0.3", "0.7"], "0.3"))

  /** The round trip of the page: the ablation rate always survives, each list up to order exactly if the URL does not
      repeat names in a list with the members of its default. */
  lemma PageUrlsSurvive(url: Url, u: Url)
    requires var v := Parse(PAGE, url);
             && u.arms == WriteNames(v.arms, ARMS) && u.failureRates == WriteNames(v.failureRates, RATES)
             && u.ablationRate == if v.ablationRate != "0.3" then Some(v.ablationRate) else None
    ensures var v, v' := Parse(PAGE, url), Parse(PAGE, u);
            && v'.ablationRate == v.ablationRate
            && (multiset(v'.arms) == multiset(v.arms) <==> Survives(v.arms, ARMS))
            && (multiset(v'.failureRates) == multiset(v.failureRates) <==> Survives(v.failureRates, RATES))
  {
    hide Parse, WriteNames, Survives, ARMS, RATES;
    ArmsAreGood();
    RatesAreGood();
    assert PAGE.ablation.options[1] == "0.3";
    ParseBuildParse(PAGE, url, u);
  }

  /** Three times one arm has the members of the default, so the URL leaves it out and the page shows three arms. */
  lemma ThreeTimesOneArm()
    ensures var v := ["v2_full", "v2_full", "v2_full"];
            && WriteNames(v, ARMS) == None && ReadNames(None, ARMS) == ["memory_augmented", "v2_full", "policy_memory"]
            && multiset(ReadNames(WriteNames(v, ARMS), ARMS)) != multiset(v)
  {
    var v := ["v2_full", "v2_full", "v2_full"];
    ArmsAreGood();
    assert ARMS.default[1] == "v2_full" && ARMS.options[3] == "v2_full";
    assert SameMembers(v, ARMS.default) && AllIn(v, ARMS.options);
    assert v[0] == v[1];
    NamesSurvive(v, ARMS);
  }

  /** A list of arms in the URL is shown as it stands exactly if all its names are arms, and any other list gives way to the
      three default arms; likewise the failure rates. */
  lemma ListsInTheUrl(parts: seq<string>)
    requires Clean(parts)
    ensures ReadNames(Some(Csv.Join(parts, ',')), ARMS) ==
            if forall x :: x in parts ==> x in {"memoryless", "static_react", "memory_augmented", "v2_full", "policy_memory"}
            then parts else ["memory_augmented", "v2_full", "policy_memory"]
    ensures ReadNames(Some(Csv.Join(parts, ',')), RATES) ==
            if forall x :: x in parts ==> x in {"0.0", "0.3", "0.7"} then parts else ["0.0", "0.3", "0.7"]
  {
    hide ParseList, Csv.Join, Clean;
    ListRoundTrip(parts);
    forall x ensures x in ARMS.options <==> x in {"memoryless", "static_react", "memory_augmented", "v2_full", "policy_memory"} {
      ArmNames(x);
    }
    forall x ensures x in RATES.options <==> x in {"0.0", "0.3", "0.7"} { RateNames(x); }
    if forall x :: x in parts ==> x in ARMS.options { assert AllIn(parts, ARMS.options); }
    if forall x :: x in parts ==> x in RATES.options { assert AllIn(parts, RATES.options); }
  }

  lemma ArmNames(x: string)
    ensures x in ARMS.options <==> x in {"memoryless", "static_react", "memory_augmented", "v2_full", "policy_memory"}
  {
    var o := ARMS.options;
    assert o[0] == "memoryless" && o[1] == "static_react" && o[2] == "memory_augmented" && o[3] == "v2_full";
    assert o[4] == "policy_memory";
  }

  lemma RateNames(x: string)
    ensures x in RATES.options <==> x in {"0.0", "0.3", "0.7"}
  {
    assert RATES.options[0] == "0.0" && RATES.options[1] == "0.3" && RATES.options[2] == "0.7";
  }

  /** A page without parameters, and the one rate shown if it is one of the three. */
  lemma PageWithout(u: Url)
    ensures Parse(PAGE, Url(None, None, None)) ==
            Params(["memory_augmented", "v2_full", "policy_memory"], ["0.0", "0.3", "0.7"], "0.3")
    ensures Parse(PAGE, u).ablationRate ==
            if u.ablationRate.Some? && u.ablationRate.value in {"0.0", "0.3", "0.7"} then u.ablationRate.value else "0.3"
    ensures Parse(PAGE, u).arms == ReadNames(u.arms, ARMS) && Parse(PAGE, u).failureRates == ReadNames(u.failureRates, RATES)
  {
    hide ParseList;
    if u.ablationRate.Some? { RateNames(u.ablationRate.value); }
  }
}
