/** Python's `sorted` on a set of strings: the lexicographic order and the ascending listing of a set. */
module Ordering {

  /** Strict lexicographic order on strings, by code point. */
  predicate Less(a: string, b: string) {
    b != [] && (a == [] || a[0] < b[0] || (a[0] == b[0] && Less(a[1..], b[1..])))
  }

  /** The texts agree up to some place, and there `a` ends or has the smaller character. */
  lemma {:induction false} LessMeans(a: string, b: string) returns (k: nat)
    ensures k <= |a| && k <= |b| && a[..k] == b[..k] && (k < |a| && k < |b| ==> a[k] != b[k])
    ensures Less(a, b) <==> k < |b| && (k == |a| || a[k] < b[k])
  {
    if a != [] && b != [] && a[0] == b[0] {
      k := LessMeans(a[1..], b[1..]);
      assert a[..k + 1] == [a[0]] + a[1..][..k] && b[..k + 1] == [b[0]] + b[1..][..k];
      k := k + 1;
    } else {
      k := 0;
    }
  }

  predicate Ascending(s: seq<string>) {
    forall i, j :: 0 <= i < j < |s| ==> Less(s[i], s[j])
  }

  predicate NoDup<T(==)>(s: seq<T>) {
    forall i, j :: 0 <= i < j < |s| ==> s[i] != s[j]
  }

  function Elements<T(==)>(s: seq<T>): set<T> {
    set x | x in s
  }

  lemma {:induction false} LessIrreflexive(a: string)
    ensures !Less(a, a)
  {
    if a != [] { LessIrreflexive(a[1..]); }
  }

  lemma {:induction false} LessTransitive(a: string, b: string, c: string)
    requires Less(a, b) && Less(b, c)
    ensures Less(a, c)
  {
    if a != [] && a[0] == b[0] == c[0] { LessTransitive(a[1..], b[1..], c[1..]); }
  }

  lemma {:induction false} LessTotal(a: string, b: string)
    ensures a == b || Less(a, b) || Less(b, a)
  {
    if a != [] && b != [] && a[0] == b[0] {
      LessTotal(a[1..], b[1..]);
      assert a == [a[0]] + a[1..] && b == [b[0]] + b[1..];
    }
  }

  predicate IsLeast(m: string, s: set<string>) {
    m in s && forall x :: x in s ==> x == m || Less(m, x)
  }

  lemma {:induction false} LeastExists(s: set<string>) returns (m: string)
    requires s != {}
    ensures IsLeast(m, s)
    decreases |s|
  {
    var x :| x in s;
    if s == {x} {
      m := x;
    } else {
      var n := LeastExists(s - {x});
      LessTotal(x, n);
      if Less(x, n) {
        m := x;
        forall y | y in s ensures y == x || Less(x, y) {
          if y != x && y != n { LessTransitive(x, n, y); }
        }
      } else {
        m := n;
      }
    }
  }

  lemma LeastIsUnique(m: string, n: string, s: set<string>)
    requires IsLeast(m, s) && IsLeast(n, s)
    ensures m == n
  {
    if m != n {
      LessTransitive(m, n, m);
      LessIrreflexive(m);
    }
  }

  function Least(s: set<string>): (m: string)
    requires s != {}
    ensures IsLeast(m, s)
  {
    ghost var w := LeastWitness(s);
    assert forall a, b | IsLeast(a, s) && IsLeast(b, s) :: a == b by {
      forall a, b | IsLeast(a, s) && IsLeast(b, s) ensures a == b { LeastIsUnique(a, b, s); }
    }
    var m :| m in s && IsLeast(m, s);
    m
  }

  ghost function LeastWitness(s: set<string>): (m: string)
    requires s != {}
    ensures IsLeast(m, s)
  {
    assert exists m :: IsLeast(m, s) by { var m := LeastExists(s); }
    var m :| IsLeast(m, s); m
  }

  /** The ascending listing of a set. */
  function Sorted(s: set<string>): (r: seq<string>)
    ensures Elements(r) == s
    ensures forall x :: x in r <==> x in s
    decreases |s|
  {
    if s == {} then [] else
      var m := Least(s);
      [m] + Sorted(s - {m})
  }

  /** The listing is ascending and holds every element once. */
  lemma {:induction false} SortedAscends(s: set<string>)
    ensures Ascending(Sorted(s)) && NoDup(Sorted(s)) && |Sorted(s)| == |s|
    decreases |s|
  {
    if s != {} {
      var m := Least(s);
      var rest := Sorted(s - {m});
      SortedAscends(s - {m});
      forall i | 0 <= i < |rest| ensures Less(m, rest[i]) && m != rest[i] { assert rest[i] in s - {m}; }
      assert Sorted(s) == [m] + rest;
    }
  }

  lemma EmptyElements<T>(s: seq<T>)
    ensures Elements(s) == {} <==> s == []
  {
    if s != [] { assert s[0] in Elements(s); }
  }

  /** An ascending listing is determined by its elements, so `Sorted` is the only possible result. */
  lemma {:induction false} AscendingIsUnique(a: seq<string>, b: seq<string>)
    requires Ascending(a) && Ascending(b) && Elements(a) == Elements(b)
    ensures a == b
    decreases |a|
  {
    EmptyElements(a);
    EmptyElements(b);
    if a != [] {
      assert a[0] in Elements(b) && b[0] in Elements(a);
      var i :| 0 <= i < |b| && b[i] == a[0];
      var j :| 0 <= j < |a| && a[j] == b[0];
      if i != 0 && j != 0 {
        LessTransitive(a[0], a[j], b[i]);
        LessIrreflexive(a[0]);
      }
      assert a[0] == b[0];
      forall k | 0 < k < |a| ensures a[k] != a[0] { LessIrreflexive(a[0]); }
      forall k | 0 < k < |b| ensures b[k] != b[0] { LessIrreflexive(b[0]); }
      assert Elements(a[1..]) == Elements(a) - {a[0]};
      assert Elements(b[1..]) == Elements(b) - {b[0]};
      AscendingIsUnique(a[1..], b[1..]);
      assert a == [a[0]] + a[1..] && b == [b[0]] + b[1..];
    }
  }

  // ---- parts of a list, in its order ----

  /** `kept` are the entries of `whole` at the places `at`, which rise from `from` on. */
  predicate Picks<T(==)>(at: seq<nat>, kept: seq<T>, whole: seq<T>, from: nat) {
    && |at| == |kept| && (forall j :: 0 <= j < |at| ==> from <= at[j] < |whole| && kept[j] == whole[at[j]])
    && forall i, j :: 0 <= i < j < |at| ==> at[i] < at[j]
  }

  lemma PicksEarlier<T>(at: seq<nat>, kept: seq<T>, whole: seq<T>, from: nat)
    requires Picks(at, kept, whole, from + 1) && from < |whole|
    ensures Picks(at, kept, whole, from) && from !in at
    ensures Picks([from] + at, [whole[from]] + kept, whole, from)
  {
  }
}
