/** The text a policy id is hashed from (memory/policy_store.py): the intent, a colon, and the workflow as JSON. */
module PolicyKey {
  import opened Json

  function KeyText(intent: Text, workflow: seq<seq<Text>>): Text {
    intent + ([COLON] + Dump(workflow))
  }

  /** A scanner for quotes: `quoted` flips at each unescaped quote, `escaped` follows a backslash. */
  datatype Mode = Mode(quoted: bool, escaped: bool)

  const OUTSIDE := Mode(false, false)
  const INSIDE := Mode(true, false)

  function Next(m: Mode, c: Code): Mode {
    if m.escaped then Mode(m.quoted, false)
    else if c == BACKSLASH then Mode(m.quoted, true)
    else if c == QUOTE then Mode(!m.quoted, false)
    else m
  }

  function Scan(s: Text, m: Mode): Mode {
    if s == [] then m else Scan(s[1..], Next(m, s[0]))
  }

  /** Every colon is met inside quotes. */
  predicate ColonsInside(s: Text, m: Mode) {
    s == [] || ((s[0] == COLON ==> m == INSIDE) && ColonsInside(s[1..], Next(m, s[0])))
  }

  lemma {:induction false} ScanAppend(s: Text, t: Text, m: Mode)
    ensures Scan(s + t, m) == Scan(t, Scan(s, m))
    ensures ColonsInside(s + t, m) <==> ColonsInside(s, m) && ColonsInside(t, Scan(s, m))
  {
    if s == [] {
      assert s + t == t;
    } else {
      assert (s + t)[1..] == s[1..] + t;
      ScanAppend(s[1..], t, Next(m, s[0]));
    }
  }

  function Flip(m: Mode): Mode {
    Mode(!m.quoted, m.escaped)
  }

  /** The scanner treats both sides of a quote alike. */
  lemma {:induction false} ScanFlips(s: Text, m: Mode)
    ensures Scan(s, Flip(m)) == Flip(Scan(s, m))
  {
    if s != [] { ScanFlips(s[1..], Next(m, s[0])); }
  }

  /** Starts and ends outside quotes, with all colons inside. */
  predicate Closed(s: Text) {
    Scan(s, OUTSIDE) == OUTSIDE && ColonsInside(s, OUTSIDE)
  }

  lemma ClosedAppend(s: Text, t: Text)
    requires Closed(s) && Closed(t)
    ensures Closed(s + t)
  {
    ScanAppend(s, t, OUTSIDE);
  }

  lemma ScanShort(s: Text, m: Mode)
    requires 1 <= |s| <= 2
    ensures Scan(s, m) == if |s| == 1 then Next(m, s[0]) else Next(Next(m, s[0]), s[1])
    ensures ColonsInside(s, m) <==> (s[0] == COLON ==> m == INSIDE) && (|s| == 2 && s[1] == COLON ==> Next(m, s[0]) == INSIDE)
  {
    assert s[1..] == [] || (s[1..][0] == s[1] && s[1..][1..] == []);
    assert Scan([], Next(m, s[0])) == Next(m, s[0]) && ColonsInside([], Next(m, s[0]));
    if |s| == 2 {
      var n := Next(Next(m, s[0]), s[1]);
      assert Scan([], n) == n && ColonsInside([], n);
    }
  }

  /** Text without quotes, backslashes and colons leaves the scanner alone. */
  lemma {:induction false} ScanPlain(s: Text, m: Mode)
    requires !m.escaped && forall k :: 0 <= k < |s| ==> s[k] != QUOTE && s[k] != BACKSLASH && s[k] != COLON
    ensures Scan(s, m) == m && ColonsInside(s, m)
  {
    if s != [] { ScanPlain(s[1..], Next(m, s[0])); }
  }

  lemma EscapeStaysInside(u: Unit)
    ensures Scan(Escape(u), INSIDE) == INSIDE && ColonsInside(Escape(u), INSIDE)
  {
    var e := Escape(u);
    if |e| <= 2 {
      ScanShort(e, INSIDE);
    } else {
      assert e == e[..2] + e[2..];
      ScanAppend(e[..2], e[2..], INSIDE);
      ScanShort(e[..2], INSIDE);
      ScanPlain(e[2..], INSIDE);
    }
  }

  lemma {:induction false} EscapesStayInside(us: seq<Unit>)
    ensures Scan(EscapeUnits(us), INSIDE) == INSIDE && ColonsInside(EscapeUnits(us), INSIDE)
  {
    hide Escape;
    if us != [] {
      EscapeStaysInside(us[0]);
      EscapesStayInside(us[1..]);
      ScanAppend(Escape(us[0]), EscapeUnits(us[1..]), INSIDE);
    }
  }

  lemma StringIsClosed(us: seq<Unit>)
    ensures Closed(DumpUnits(us))
  {
    hide EscapeUnits, Scan, ColonsInside;
    var e := EscapeUnits(us);
    EscapesStayInside(us);
    ScanShort([QUOTE], OUTSIDE);
    ScanShort([QUOTE], INSIDE);
    ScanAppend([QUOTE], e, OUTSIDE);
    ScanAppend([QUOTE] + e, [QUOTE], OUTSIDE);
  }

  lemma {:induction false} TailIsClosed<T(!new)>(dump: T -> Text, items: seq<T>)
    requires forall t :: Closed(dump(t))
    ensures Closed(DumpTail(dump, items))
  {
    hide Closed;
    if items == [] {
      PlainIsClosed([CLOSE]);
    } else {
      TailIsClosed(dump, items[1..]);
      PlainIsClosed([COMMA, SPACE]);
      ClosedAppend(dump(items[0]), DumpTail(dump, items[1..]));
      ClosedAppend([COMMA, SPACE], dump(items[0]) + DumpTail(dump, items[1..]));
    }
  }

  lemma PlainIsClosed(s: Text)
    requires forall k :: 0 <= k < |s| ==> s[k] != QUOTE && s[k] != BACKSLASH && s[k] != COLON
    ensures Closed(s)
  {
    ScanPlain(s, OUTSIDE);
  }

  lemma ListIsClosed<T(!new)>(dump: T -> Text, items: seq<T>)
    requires forall t :: Closed(dump(t))
    ensures Closed(DumpList(dump, items))
  {
    hide Closed, DumpTail;
    PlainIsClosed([OPEN]);
    PlainIsClosed([CLOSE]);
    if items != [] {
      TailIsClosed(dump, items[1..]);
      ClosedAppend(dump(items[0]), DumpTail(dump, items[1..]));
    }
    ClosedAppend([OPEN], DumpRest(dump, items));
  }

  /** Printed JSON ends outside quotes, and its colons are all inside them. */
  lemma DumpIsClosed(workflow: seq<seq<Text>>)
    ensures Closed(Dump(workflow))
  {
    hide Closed, DumpList, DumpUnits, Map;
    DumpIsByUnits(workflow);
    forall us ensures Closed(DumpUnits(us)) { StringIsClosed(us); }
    forall layer ensures Closed(DumpUnitLayer(layer)) { ListIsClosed(DumpUnits, layer); }
    ListIsClosed(DumpUnitLayer, Map(UnitLayer, workflow));
  }

  /** No closed text ends in a colon followed by a closed text: that colon would be inside quotes, and then the quotes
      after it could not close. */
  lemma NoColonBefore(front: Text, back: Text)
    requires Closed(back)
    ensures !Closed(front + ([COLON] + back))
  {
    var s := front + ([COLON] + back);
    if Closed(s) {
      ScanAppend(front, [COLON] + back, OUTSIDE);
      var m := Scan(front, OUTSIDE);
      assert ([COLON] + back)[1..] == back;
      assert m == INSIDE;
      assert Scan(s, OUTSIDE) == Scan(back, INSIDE);
      ScanFlips(back, OUTSIDE);
      assert false;
    }
  }

  lemma SplitAtSameColon(i: Text, j: Text, a: Text, b: Text)
    requires i + ([COLON] + a) == j + ([COLON] + b) && Closed(a) && Closed(b) && |i| <= |j|
    ensures i == j && a == b
  {
    var s := i + ([COLON] + a);
    var t := j + ([COLON] + b);
    if |i| < |j| {
      var front := j[|i| + 1..];
      assert s[|i| + 1..] == a;
      assert t[|i| + 1..] == front + ([COLON] + b);
      NoColonBefore(front, b);
    } else {
      assert i == s[..|i|] && j == t[..|i|];
      assert a == s[|i| + 1..] && b == t[|i| + 1..];
    }
  }

  /** Two keys are the same text exactly when the intents are the same and the workflows differ at most in how
      surrogate pairs are written; colons, quotes and brackets in the names make no difference. */
  lemma KeyTextIsInjective(i: Text, v: seq<seq<Text>>, j: Text, w: seq<seq<Text>>)
    ensures KeyText(i, v) == KeyText(j, w) <==> i == j && JoinedWorkflow(v) == JoinedWorkflow(w)
  {
    hide Dump, Closed, JoinedWorkflow;
    DumpIsClosed(v);
    DumpIsClosed(w);
    DumpIsInjective(v, w);
    if KeyText(i, v) == KeyText(j, w) {
      if |i| <= |j| { SplitAtSameColon(i, j, Dump(v), Dump(w)); } else { SplitAtSameColon(j, i, Dump(w), Dump(v)); }
    }
  }

  /** Proper text: no surrogate pair in any name. Every Unicode text is. */
  predicate Proper(workflow: seq<seq<Text>>) {
    forall k, l :: 0 <= k < |workflow| && 0 <= l < |workflow[k]| ==> Unpaired(workflow[k][l])
  }

  lemma ProperIsJoined(workflow: seq<seq<Text>>)
    requires Proper(workflow)
    ensures JoinedWorkflow(workflow) == workflow
  {
    forall k | 0 <= k < |workflow| ensures JoinedLayer(workflow[k]) == workflow[k] {
      forall l | 0 <= l < |workflow[k]| ensures Joined(workflow[k][l]) == workflow[k][l] { UnpairedIsJoined(workflow[k][l]); }
    }
  }

  lemma ProperKeysAreInjective(i: Text, v: seq<seq<Text>>, j: Text, w: seq<seq<Text>>)
    requires Proper(v) && Proper(w) && KeyText(i, v) == KeyText(j, w)
    ensures i == j && v == w
  {
    hide JoinedWorkflow;
    KeyTextIsInjective(i, v, j, w);
    ProperIsJoined(v);
    ProperIsJoined(w);
  }

  /** The key of a workflow of one tool "a" for the intent "b". */
  lemma KeyOfOneTool()
    ensures var a, b := Character('a'), Character('b');
            KeyText([b], [[[a]]]) ==
            [b, Character(':'), Character('['), Character('['), Character('"'), a, Character('"'), Character(']'), Character(']')]
  {
    var a := Character('a');
    assert [a][1..] == [] && EscapeAll([]) == [] && EscapeAll([a]) == [a];
    assert DumpString([a]) == [QUOTE, a, QUOTE];
    assert [[a]][1..] == [] && [[[a]]][1..] == [];
    assert DumpLayer([[a]]) == [OPEN] + (DumpString([a]) + [CLOSE]);
    assert Dump([[[a]]]) == [OPEN] + (DumpLayer([[a]]) + [CLOSE]);
  }
}
