/** Python's `json.dumps` on lists of lists of strings, and what its text reveals. Text is a sequence of code points;
    like a Python string it may hold unpaired surrogates. */
module Json {

  type Code = c: int | 0 <= c < 0x110000 witness 0
  type Unit = c: Code | c < 0x10000 witness 0
  type Text = seq<Code>

  const QUOTE: Code := 0x22
  const BACKSLASH: Code := 0x5C
  const COLON: Code := 0x3A
  const COMMA: Code := 0x2C
  const SPACE: Code := 0x20
  const OPEN: Code := 0x5B
  const CLOSE: Code := 0x5D

  // ---- surrogates ----

  predicate High(c: Code) { 0xD800 <= c < 0xDC00 }

  predicate Low(c: Code) { 0xDC00 <= c < 0xE000 }

  function Combine(h: Code, l: Code): (c: Code)
    requires High(h) && Low(l)
    ensures c >= 0x10000
  {
    0x10000 + (h - 0xD800) * 0x400 + (l - 0xDC00)
  }

  function HighOf(c: Code): (h: Code)
    requires c >= 0x10000
    ensures High(h)
  {
    0xD800 + (c - 0x10000) / 0x400
  }

  function LowOf(c: Code): (l: Code)
    requires c >= 0x10000
    ensures Low(l)
  {
    0xDC00 + (c - 0x10000) % 0x400
  }

  lemma SplitAndCombine(c: Code, h: Code, l: Code)
    ensures c >= 0x10000 ==> Combine(HighOf(c), LowOf(c)) == c
    ensures High(h) && Low(l) ==> HighOf(Combine(h, l)) == h && LowOf(Combine(h, l)) == l
  {
  }

  /** The 16-bit units of a text: a code point beyond them becomes a surrogate pair. */
  function Units(s: Text): seq<Unit> {
    if s == [] then [] else (if s[0] < 0x10000 then [s[0]] else [HighOf(s[0]), LowOf(s[0])]) + Units(s[1..])
  }

  /** The text with every surrogate pair in it joined into one code point. */
  function Joined(s: Text): Text {
    if |s| >= 2 && High(s[0]) && Low(s[1]) then [Combine(s[0], s[1])] + Joined(s[2..])
    else if s == [] then [] else [s[0]] + Joined(s[1..])
  }

  predicate Unpaired(s: Text) {
    forall i :: 0 <= i < |s| - 1 ==> !(High(s[i]) && Low(s[i + 1]))
  }

  lemma {:induction false} UnpairedIsJoined(s: Text)
    requires Unpaired(s)
    ensures Joined(s) == s
  {
    if s != [] {
      var rest := s[1..];
      forall i | 0 <= i < |rest| - 1 ensures !(High(rest[i]) && Low(rest[i + 1])) {
        assert rest[i] == s[i + 1] && rest[i + 1] == s[i + 2];
      }
      UnpairedIsJoined(rest);
      assert s == [s[0]] + rest;
    }
  }

  lemma {:induction false} UnitsOfJoined(s: Text)
    ensures Units(Joined(s)) == Units(s)
  {
    if |s| >= 2 && High(s[0]) && Low(s[1]) {
      UnitsOfJoined(s[2..]);
      SplitAndCombine(s[0], s[0], s[1]);
      var c := Combine(s[0], s[1]);
      assert Joined(s)[1..] == Joined(s[2..]);
      assert s[1..][1..] == s[2..];
      assert Units(s) == [s[0]] + ([s[1]] + Units(s[2..]));
    } else if s != [] {
      UnitsOfJoined(s[1..]);
      assert Joined(s)[1..] == Joined(s[1..]);
    }
  }

  lemma {:induction false} JoinedOfUnits(s: Text)
    ensures Joined(Units(s)) == Joined(s)
  {
    if s != [] {
      JoinedOfUnits(s[1..]);
      var u := Units(s);
      if s[0] >= 0x10000 {
        assert u[2..] == Units(s[1..]);
        SplitAndCombine(s[0], 0, 0);
      } else {
        assert u[1..] == Units(s[1..]);
        if |s| >= 2 && High(s[0]) && Low(s[1]) {
          JoinedOfUnits(s[2..]);
          assert s[1..][1..] == s[2..];
          assert u[2..] == Units(s[2..]);
        }
      }
    }
  }

  /** Two texts have the same units exactly when they differ only in how surrogate pairs are written. */
  lemma SameUnits(s: Text, t: Text)
    ensures Units(s) == Units(t) <==> Joined(s) == Joined(t)
  {
    UnitsOfJoined(s);
    UnitsOfJoined(t);
    JoinedOfUnits(s);
    JoinedOfUnits(t);
  }

  // ---- the printer ----

  function Hex(d: int): Code
    requires 0 <= d < 16
  {
    if d < 10 then 0x30 + d else 0x57 + d
  }

  function Escape(u: Unit): Text {
    if u == QUOTE || u == BACKSLASH then [BACKSLASH, u]
    else if u == 0x08 then [BACKSLASH, 0x62]
    else if u == 0x09 then [BACKSLASH, 0x74]
    else if u == 0x0A then [BACKSLASH, 0x6E]
    else if u == 0x0C then [BACKSLASH, 0x66]
    else if u == 0x0D then [BACKSLASH, 0x72]
    else if 0x20 <= u <= 0x7E then [u]
    else [BACKSLASH, 0x75, Hex(u / 0x1000), Hex(u / 0x100 % 0x10), Hex(u / 0x10 % 0x10), Hex(u % 0x10)]
  }

  /** A code point beyond 16 bits is escaped as its surrogate pair. */
  function EscapeAll(s: Text): Text {
    if s == [] then []
    else (if s[0] < 0x10000 then Escape(s[0]) else Escape(HighOf(s[0])) + Escape(LowOf(s[0]))) + EscapeAll(s[1..])
  }

  function DumpString(s: Text): Text {
    [QUOTE] + EscapeAll(s) + [QUOTE]
  }

  /** The later items of a list, each after the separator ", ", and the closing bracket. */
  function DumpTail<T>(dump: T -> Text, items: seq<T>): Text {
    if items == [] then [CLOSE] else [COMMA, SPACE] + (dump(items[0]) + DumpTail(dump, items[1..]))
  }

  function DumpRest<T>(dump: T -> Text, items: seq<T>): Text {
    if items == [] then [CLOSE] else dump(items[0]) + DumpTail(dump, items[1..])
  }

  function DumpList<T>(dump: T -> Text, items: seq<T>): Text {
    [OPEN] + DumpRest(dump, items)
  }

  function DumpLayer(layer: seq<Text>): Text {
    DumpList(DumpString, layer)
  }

  function Dump(workflow: seq<seq<Text>>): Text {
    DumpList(DumpLayer, workflow)
  }

  // ---- the printer in terms of units ----

  function EscapeUnits(us: seq<Unit>): Text {
    if us == [] then [] else Escape(us[0]) + EscapeUnits(us[1..])
  }

  function DumpUnits(us: seq<Unit>): Text {
    [QUOTE] + EscapeUnits(us) + [QUOTE]
  }

  function DumpUnitLayer(layer: seq<seq<Unit>>): Text {
    DumpList(DumpUnits, layer)
  }

  lemma {:induction false} EscapeAllIsByUnits(s: Text)
    ensures EscapeAll(s) == EscapeUnits(Units(s))
  {
    hide Escape;
    if s != [] {
      EscapeAllIsByUnits(s[1..]);
      var u := Units(s);
      if s[0] >= 0x10000 {
        assert u[1..][1..] == u[2..] == Units(s[1..]);
        assert EscapeUnits(u) == Escape(u[0]) + (Escape(u[1]) + EscapeUnits(u[2..]));
      } else {
        assert u[1..] == Units(s[1..]);
      }
    }
  }

  function Map<A, B>(f: A -> B, xs: seq<A>): (r: seq<B>)
    ensures |r| == |xs| && forall k :: 0 <= k < |r| ==> r[k] == f(xs[k])
  {
    if xs == [] then [] else [f(xs[0])] + Map(f, xs[1..])
  }

  lemma {:induction false} DumpTailOfMap<A, B>(dump: A -> Text, f: A -> B, dump': B -> Text, items: seq<A>)
    requires forall a :: dump(a) == dump'(f(a))
    ensures DumpTail(dump, items) == DumpTail(dump', Map(f, items))
  {
    if items != [] {
      DumpTailOfMap(dump, f, dump', items[1..]);
      assert Map(f, items)[1..] == Map(f, items[1..]);
    }
  }

  lemma DumpListOfMap<A, B>(dump: A -> Text, f: A -> B, dump': B -> Text, items: seq<A>)
    requires forall a :: dump(a) == dump'(f(a))
    ensures DumpList(dump, items) == DumpList(dump', Map(f, items))
  {
    if items != [] {
      DumpTailOfMap(dump, f, dump', items[1..]);
      assert Map(f, items)[1..] == Map(f, items[1..]);
    }
  }

  function UnitLayer(layer: seq<Text>): seq<seq<Unit>> {
    Map(Units, layer)
  }

  lemma DumpIsByUnits(workflow: seq<seq<Text>>)
    ensures Dump(workflow) == DumpList(DumpUnitLayer, Map(UnitLayer, workflow))
  {
    hide DumpList, Map;
    forall s ensures DumpString(s) == DumpUnits(Units(s)) { EscapeAllIsByUnits(s); }
    forall layer ensures DumpLayer(layer) == DumpUnitLayer(UnitLayer(layer)) {
      DumpListOfMap(DumpString, Units, DumpUnits, layer);
    }
    DumpListOfMap(DumpLayer, UnitLayer, DumpUnitLayer, workflow);
  }

  // ---- a printed value can be told from what follows it ----

  ghost predicate PrefixFree<T(!new)>(dump: T -> Text) {
    forall a, b, x, y :: dump(a) + x == dump(b) + y ==> a == b && x == y
  }

  /** No printed item looks like the end of a list. */
  ghost predicate Opens<T(!new)>(dump: T -> Text) {
    forall a :: dump(a) != [] && dump(a)[0] != CLOSE
  }

  lemma HexIsInjective(c: int, d: int)
    requires 0 <= c < 16 && 0 <= d < 16 && Hex(c) == Hex(d)
    ensures c == d
  {
  }

  lemma DigitStep(n: int, k: int)
    requires n >= 0 && (k == 0x10 || k == 0x100)
    ensures n / k / 0x10 == n / (k * 0x10)
  {
  }

  lemma Digits(u: Unit)
    ensures u == u / 0x1000 * 0x1000 + u / 0x100 % 0x10 * 0x100 + u / 0x10 % 0x10 * 0x10 + u % 0x10
  {
    DigitStep(u, 0x10);
    DigitStep(u, 0x100);
    var q1 := u / 0x10;
    var q2 := q1 / 0x10;
    assert u == q1 * 0x10 + u % 0x10;
    assert q1 == q2 * 0x10 + q1 % 0x10;
    assert q2 == q2 / 0x10 * 0x10 + q2 % 0x10;
  }

  lemma EscapeIsInjective(a: Unit, b: Unit)
    requires Escape(a) == Escape(b)
    ensures a == b
  {
    if |Escape(a)| == 6 {
      HexIsInjective(a / 0x1000, b / 0x1000);
      HexIsInjective(a / 0x100 % 0x10, b / 0x100 % 0x10);
      HexIsInjective(a / 0x10 % 0x10, b / 0x10 % 0x10);
      HexIsInjective(a % 0x10, b % 0x10);
      Digits(a);
      Digits(b);
    }
  }

  /** The first two characters of an escape fix its length. */
  lemma EscapeLength(a: Unit)
    ensures |Escape(a)| == (if Escape(a)[0] != BACKSLASH then 1 else if Escape(a)[1] != 0x75 then 2 else 6)
    ensures Escape(a)[0] != QUOTE
  {
  }

  lemma EscapeIsPrefixFree(a: Unit, b: Unit, x: Text, y: Text)
    requires Escape(a) + x == Escape(b) + y
    ensures a == b && x == y
  {
    hide Escape;
    EscapeLength(a);
    EscapeLength(b);
    var l, r := Escape(a) + x, Escape(b) + y;
    assert l[0] == Escape(a)[0] && r[0] == Escape(b)[0];
    if Escape(a)[0] == BACKSLASH { assert l[1] == Escape(a)[1] && r[1] == Escape(b)[1]; }
    var n := |Escape(a)|;
    assert Escape(a) == l[..n] && Escape(b) == r[..n] && x == l[n..] && y == r[n..];
    EscapeIsInjective(a, b);
  }

  lemma Associate(a: Text, b: Text, c: Text)
    ensures (a + b) + c == a + (b + c)
  {
  }

  lemma {:induction false} EscapedEnds(us: seq<Unit>, vs: seq<Unit>, x: Text, y: Text)
    requires EscapeUnits(us) + ([QUOTE] + x) == EscapeUnits(vs) + ([QUOTE] + y)
    ensures us == vs && x == y
  {
    hide Escape;
    if us != [] { EscapeLength(us[0]); Associate(Escape(us[0]), EscapeUnits(us[1..]), [QUOTE] + x); }
    if vs != [] { EscapeLength(vs[0]); Associate(Escape(vs[0]), EscapeUnits(vs[1..]), [QUOTE] + y); }
    var l, r := EscapeUnits(us) + ([QUOTE] + x), EscapeUnits(vs) + ([QUOTE] + y);
    assert l[0] == if us == [] then QUOTE else Escape(us[0])[0];
    assert r[0] == if vs == [] then QUOTE else Escape(vs[0])[0];
    if us == [] {
      assert x == l[1..] && y == r[1..];
    } else {
      EscapeIsPrefixFree(us[0], vs[0], EscapeUnits(us[1..]) + ([QUOTE] + x), EscapeUnits(vs[1..]) + ([QUOTE] + y));
      EscapedEnds(us[1..], vs[1..], x, y);
      assert us == [us[0]] + us[1..] && vs == [vs[0]] + vs[1..];
    }
  }

  lemma StringsArePrefixFree()
    ensures PrefixFree(DumpUnits) && Opens(DumpUnits)
  {
    hide EscapeUnits;
    forall a, b, x, y | DumpUnits(a) + x == DumpUnits(b) + y ensures a == b && x == y {
      var l, r := DumpUnits(a) + x, DumpUnits(b) + y;
      assert l[1..] == EscapeUnits(a) + ([QUOTE] + x);
      assert r[1..] == EscapeUnits(b) + ([QUOTE] + y);
      EscapedEnds(a, b, x, y);
    }
  }

  lemma {:induction false} TailIsPrefixFree<T(!new)>(dump: T -> Text, a: seq<T>, b: seq<T>, x: Text, y: Text)
    requires PrefixFree(dump)
    requires DumpTail(dump, a) + x == DumpTail(dump, b) + y
    ensures a == b && x == y
  {
    var l, r := DumpTail(dump, a) + x, DumpTail(dump, b) + y;
    assert l[0] == (if a == [] then CLOSE else COMMA) && r[0] == (if b == [] then CLOSE else COMMA);
    if a == [] {
      assert x == l[1..] && y == r[1..];
    } else {
      var ta, tb := DumpTail(dump, a[1..]), DumpTail(dump, b[1..]);
      Associate(dump(a[0]), ta, x);
      Associate(dump(b[0]), tb, y);
      assert l[2..] == dump(a[0]) + (ta + x) && r[2..] == dump(b[0]) + (tb + y);
      TailIsPrefixFree(dump, a[1..], b[1..], x, y);
      assert a == [a[0]] + a[1..] && b == [b[0]] + b[1..];
    }
  }

  lemma RestIsPrefixFree<T(!new)>(dump: T -> Text, a: seq<T>, b: seq<T>, x: Text, y: Text)
    requires PrefixFree(dump) && Opens(dump)
    requires DumpRest(dump, a) + x == DumpRest(dump, b) + y
    ensures a == b && x == y
  {
    hide DumpTail;
    var l, r := DumpRest(dump, a) + x, DumpRest(dump, b) + y;
    assert l[0] == if a == [] then CLOSE else dump(a[0])[0];
    assert r[0] == if b == [] then CLOSE else dump(b[0])[0];
    if a == [] {
      assert x == l[1..] && y == r[1..];
    } else {
      var ta, tb := DumpTail(dump, a[1..]), DumpTail(dump, b[1..]);
      Associate(dump(a[0]), ta, x);
      Associate(dump(b[0]), tb, y);
      assert dump(a[0]) + (ta + x) == dump(b[0]) + (tb + y);
      TailIsPrefixFree(dump, a[1..], b[1..], x, y);
      assert a == [a[0]] + a[1..] && b == [b[0]] + b[1..];
    }
  }

  lemma ListIsPrefixFree<T(!new)>(dump: T -> Text, a: seq<T>, b: seq<T>, x: Text, y: Text)
    requires PrefixFree(dump) && Opens(dump)
    requires DumpList(dump, a) + x == DumpList(dump, b) + y
    ensures a == b && x == y
  {
    hide PrefixFree, Opens, DumpRest;
    var l, r := DumpList(dump, a) + x, DumpList(dump, b) + y;
    assert l[1..] == DumpRest(dump, a) + x && r[1..] == DumpRest(dump, b) + y;
    RestIsPrefixFree(dump, a, b, x, y);
  }

  lemma LayersArePrefixFree()
    ensures PrefixFree(DumpUnitLayer) && Opens(DumpUnitLayer)
  {
    hide DumpRest;
    StringsArePrefixFree();
    forall a, b, x, y | DumpUnitLayer(a) + x == DumpUnitLayer(b) + y ensures a == b && x == y {
      ListIsPrefixFree(DumpUnits, a, b, x, y);
    }
  }

  function JoinedLayer(layer: seq<Text>): seq<Text> {
    Map(Joined, layer)
  }

  function JoinedWorkflow(workflow: seq<seq<Text>>): seq<seq<Text>> {
    Map(JoinedLayer, workflow)
  }

  lemma MapsAgree<A(!new), B, C>(f: A -> B, g: A -> C, xs: seq<A>, ys: seq<A>)
    requires forall a, b :: f(a) == f(b) <==> g(a) == g(b)
    ensures Map(f, xs) == Map(f, ys) <==> Map(g, xs) == Map(g, ys)
  {
    if Map(f, xs) == Map(f, ys) {
      forall k | 0 <= k < |xs| ensures g(xs[k]) == g(ys[k]) { assert Map(f, xs)[k] == Map(f, ys)[k]; }
    }
    if Map(g, xs) == Map(g, ys) {
      forall k | 0 <= k < |xs| ensures f(xs[k]) == f(ys[k]) { assert Map(g, xs)[k] == Map(g, ys)[k]; }
    }
  }

  /** Two workflows print alike exactly when they differ only in how surrogate pairs are written. */
  lemma DumpIsInjective(v: seq<seq<Text>>, w: seq<seq<Text>>)
    ensures Dump(v) == Dump(w) <==> JoinedWorkflow(v) == JoinedWorkflow(w)
  {
    hide DumpRest, Map, Units, Joined;
    DumpIsByUnits(v);
    DumpIsByUnits(w);
    LayersArePrefixFree();
    var us, vs := Map(UnitLayer, v), Map(UnitLayer, w);
    if Dump(v) == Dump(w) {
      assert DumpList(DumpUnitLayer, us) + [] == DumpList(DumpUnitLayer, vs) + [];
      ListIsPrefixFree(DumpUnitLayer, us, vs, [], []);
    }
    forall a, b ensures Units(a) == Units(b) <==> Joined(a) == Joined(b) { SameUnits(a, b); }
    forall a, b ensures UnitLayer(a) == UnitLayer(b) <==> JoinedLayer(a) == JoinedLayer(b) {
      MapsAgree(Units, Joined, a, b);
    }
    MapsAgree(UnitLayer, JoinedLayer, v, w);
  }

  // ---- the printed text is JSON ----

  function Character(c: char): Code {
    c as int
  }

  /** The value of a hexadecimal digit, as Python prints it. */
  function HexValue(c: Code): int {
    if Character('0') <= c <= Character('9') then c - Character('0')
    else if Character('a') <= c <= Character('f') then 10 + c - Character('a')
    else -1
  }

  predicate HexDigits(t: Text) {
    forall k :: 0 <= k < |t| ==> HexValue(t[k]) >= 0
  }

  /** What a character of a JSON string stands for (section 7 of RFC 8259): itself, if it is printable and neither quote nor
      backslash, or an escape. */
  predicate StandsFor(t: Text, u: Unit) {
    || (t == [u] && Character(' ') <= u <= Character('~') && u != Character('"') && u != Character('\\'))
    || (|t| == 2 && t[0] == Character('\\') && (
         || (t[1] == Character('"') && u == 0x22) || (t[1] == Character('\\') && u == 0x5C)
         || (t[1] == Character('b') && u == 8) || (t[1] == Character('f') && u == 12) || (t[1] == Character('n') && u == 10)
         || (t[1] == Character('r') && u == 13) || (t[1] == Character('t') && u == 9)))
    || (|t| == 6 && t[0] == Character('\\') && t[1] == Character('u') && HexDigits(t[2..])
        && u == HexValue(t[2]) * 4096 + HexValue(t[3]) * 256 + HexValue(t[4]) * 16 + HexValue(t[5])
        && !Short(u))
  }

  /** The units that have an escape of two characters or need none. */
  predicate Short(u: Unit) {
    Character(' ') <= u <= Character('~') || u in {8, 9, 10, 12, 13}
  }

  lemma HexOf(d: int)
    requires 0 <= d < 16
    ensures HexValue(Hex(d)) == d
  {
  }

  lemma EscapeStandsFor(u: Unit)
    ensures StandsFor(Escape(u), u)
  {
    var e := Escape(u);
    if |e| == 6 {
      HexOf(u / 0x1000);
      HexOf(u / 0x100 % 0x10);
      HexOf(u / 0x10 % 0x10);
      HexOf(u % 0x10);
      Digits(u);
      forall k | 0 <= k < 4 ensures HexValue(e[2..][k]) >= 0 { assert e[2..][k] == e[k + 2]; }
    }
  }

  /** The text spells the units one after the other. */
  ghost predicate Spells(t: Text, us: seq<Unit>)
    decreases |us|
  {
    if us == [] then t == []
    else exists n {:trigger t[n..]} :: 1 <= n <= |t| && StandsFor(t[..n], us[0]) && Spells(t[n..], us[1..])
  }

  ghost predicate IsString(t: Text, us: seq<Unit>) {
    |t| >= 2 && t[0] == Character('"') && t[|t| - 1] == Character('"') && Spells(t[1..|t| - 1], us)
  }

  lemma {:induction false} EscapesSpell(us: seq<Unit>)
    ensures Spells(EscapeUnits(us), us)
  {
    hide Escape, StandsFor;
    if us != [] {
      EscapesSpell(us[1..]);
      EscapeStandsFor(us[0]);
      EscapeLength(us[0]);
      var t, n := EscapeUnits(us), |Escape(us[0])|;
      assert t[..n] == Escape(us[0]) && t[n..] == EscapeUnits(us[1..]);
    }
  }

  function CommaSeparated(parts: seq<Text>): Text {
    if parts == [] then []
    else if |parts| == 1 then parts[0]
    else parts[0] + ([Character(','), Character(' ')] + CommaSeparated(parts[1..]))
  }

  function Array(parts: seq<Text>): Text {
    [Character('[')] + (CommaSeparated(parts) + [Character(']')])
  }

  lemma {:induction false} TailIsSeparated<T>(dump: T -> Text, items: seq<T>)
    requires items != []
    ensures dump(items[0]) + DumpTail(dump, items[1..]) == CommaSeparated(Map(dump, items)) + [CLOSE]
    decreases |items|
  {
    var parts := Map(dump, items);
    assert parts[1..] == Map(dump, items[1..]);
    if |items| > 1 {
      TailIsSeparated(dump, items[1..]);
      var a, b, c := dump(items[0]), CommaSeparated(parts[1..]), [CLOSE];
      assert CommaSeparated(parts) == a + ([COMMA, SPACE] + b);
      assert DumpTail(dump, items[1..]) == [COMMA, SPACE] + (b + c);
      assert a + ([COMMA, SPACE] + (b + c)) == (a + ([COMMA, SPACE] + b)) + c;
    } else {
      assert items[1..] == [];
    }
  }

  lemma ListIsArray<T>(dump: T -> Text, items: seq<T>)
    ensures DumpList(dump, items) == Array(Map(dump, items))
  {
    if items != [] { TailIsSeparated(dump, items); }
  }

  /** The printed workflow is the JSON array of its layers, each the array of its names, each a string that spells the
      name's units. */
  lemma PrintsJson(workflow: seq<seq<Text>>)
    ensures Dump(workflow) == Array(Map(DumpLayer, workflow))
    ensures forall k :: 0 <= k < |workflow| ==> DumpLayer(workflow[k]) == Array(Map(DumpString, workflow[k]))
    ensures forall k, l :: 0 <= k < |workflow| && 0 <= l < |workflow[k]| ==>
              IsString(DumpString(workflow[k][l]), Units(workflow[k][l]))
  {
    hide Units, Array, DumpList, Spells;
    ListIsArray(DumpLayer, workflow);
    forall k | 0 <= k < |workflow| ensures DumpLayer(workflow[k]) == Array(Map(DumpString, workflow[k])) {
      ListIsArray(DumpString, workflow[k]);
    }
    forall k, l | 0 <= k < |workflow| && 0 <= l < |workflow[k]|
      ensures IsString(DumpString(workflow[k][l]), Units(workflow[k][l]))
    {
      StringIsJson(workflow[k][l]);
    }
  }

  lemma StringIsJson(s: Text)
    ensures IsString(DumpString(s), Units(s))
  {
    hide Units, Spells;
    EscapeAllIsByUnits(s);
    EscapesSpell(Units(s));
    var t := DumpString(s);
    assert t[1..|t| - 1] == EscapeAll(s);
  }

  /** The treble clef of section 7 of RFC 8259. */
  lemma TrebleClef()
    ensures Units([0x1D11E]) == [0xD834, 0xDD1E]
    ensures Joined([0xD834, 0xDD1E]) == [0x1D11E]
  {
    assert [0x1D11E][1..] == [];
    assert Units([]) == [] && Joined([]) == [];
    assert [0xD834, 0xDD1E][2..] == [];
  }
}
