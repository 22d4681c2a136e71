/** The URL state of the client list (dashboard/src/features/clients/search-params.ts). */
module SearchParams {
  import opened Values
  import Csv

  // ---- lists: joined with commas, split and rid of empty parts ----

  /** JavaScript's `split(",")`. */
  function Split(s: string): (r: seq<string>)
    ensures r != []
  {
    if s == "" then [""]
    else
      var rest := Split(s[1..]);
      if s[0] == ',' then [""] + rest else [[s[0]] + rest[0]] + rest[1..]
  }

  function NonEmpty(parts: seq<string>): seq<string> {
    if parts == [] then [] else (if parts[0] == "" then [] else [parts[0]]) + NonEmpty(parts[1..])
  }

  /** The parts of a list parameter. */
  function ParseList(s: string): seq<string> {
    NonEmpty(Split(s))
  }

  predicate Clean(parts: seq<string>) {
    forall k :: 0 <= k < |parts| ==> parts[k] != "" && ',' !in parts[k]
  }

  lemma {:induction false} SplitHasNoCommas(s: string)
    ensures forall k :: 0 <= k < |Split(s)| ==> ',' !in Split(s)[k]
  {
    if s != "" { SplitHasNoCommas(s[1..]); }
  }

  lemma {:induction false} NonEmptyIsClean(parts: seq<string>)
    requires forall k :: 0 <= k < |parts| ==> ',' !in parts[k]
    ensures Clean(NonEmpty(parts))
  {
    if parts != [] { NonEmptyIsClean(parts[1..]); }
  }

  lemma {:induction false} SplitPlain(s: string)
    requires ',' !in s
    ensures Split(s) == [s]
  {
    if s != "" {
      SplitPlain(s[1..]);
      assert s == [s[0]] + s[1..];
    }
  }

  lemma {:induction false} SplitAtComma(s: string, rest: string)
    requires ',' !in s
    ensures Split(s + ([','] + rest)) == [s] + Split(rest)
  {
    var t := s + ([','] + rest);
    if s == "" {
      assert t == [','] + rest && t[1..] == rest;
    } else {
      assert t[1..] == s[1..] + ([','] + rest);
      SplitAtComma(s[1..], rest);
      assert s == [s[0]] + s[1..];
    }
  }

  lemma {:induction false} SplitJoined(parts: seq<string>)
    requires Clean(parts) && parts != []
    ensures Split(Csv.Join(parts, ',')) == parts
  {
    if |parts| == 1 {
      SplitPlain(parts[0]);
    } else {
      SplitAtComma(parts[0], Csv.Join(parts[1..], ','));
      SplitJoined(parts[1..]);
    }
  }

  lemma {:induction false} CleanStays(parts: seq<string>)
    requires Clean(parts)
    ensures NonEmpty(parts) == parts
  {
    if parts != [] { CleanStays(parts[1..]); }
  }

  /** Joining and splitting gives back a list exactly when its parts are non-empty and free of commas; the empty list
      comes back from the empty text. */
  lemma ListRoundTrip(parts: seq<string>)
    ensures ParseList(Csv.Join(parts, ',')) == parts <==> Clean(parts)
  {
    SplitHasNoCommas(Csv.Join(parts, ','));
    NonEmptyIsClean(Split(Csv.Join(parts, ',')));
    if Clean(parts) {
      if parts == [] {
        assert Csv.Join(parts, ',') == "";
        assert NonEmpty([""][1..]) == [];
      } else {
        SplitJoined(parts);
        CleanStays(parts);
      }
    }
  }

  // ---- numbers ----

  const MAX_SAFE: nat := 9007199254740991

  /** A number is a safe whole number, or another one, known by the text JavaScript prints for it. */
  datatype Number = Whole(n: nat) | Other(text: string, negative: bool)

  predicate IsDigit(c: char) { '0' <= c <= '9' }

  function Digit(d: nat): char
    requires d < 10
  {
    '0' + d as char
  }

  predicate AllDigits(s: string) {
    forall k :: 0 <= k < |s| ==> IsDigit(s[k])
  }

  function Decimal(n: nat): (s: string)
    ensures s != "" && AllDigits(s)
  {
    if n < 10 then [Digit(n)] else Decimal(n / 10) + [Digit(n % 10)]
  }

  function DecimalValue(s: string): nat
    requires AllDigits(s)
  {
    if s == "" then 0 else DecimalValue(s[..|s| - 1]) * 10 + (s[|s| - 1] - '0') as nat
  }

  lemma {:induction false} DecimalRoundTrip(n: nat)
    ensures DecimalValue(Decimal(n)) == n
  {
    if n < 10 {
      assert DecimalValue("") == 0;
      assert Decimal(n)[..0] == "";
    } else {
      DecimalRoundTrip(n / 10);
      var s := Decimal(n);
      assert s[..|s| - 1] == Decimal(n / 10);
    }
  }

  /** `Number(text)` for the texts that are not the digits of a safe whole number: None for NaN. */
  type Reading = string -> Option<Number>

  function ParseNumber(other: Reading, s: string): Option<Number> {
    if s != "" && AllDigits(s) && DecimalValue(s) <= MAX_SAFE then Some(Whole(DecimalValue(s))) else other(s)
  }

  function Show(x: Number): string {
    match x
    case Whole(n) => Decimal(n)
    case Other(text, _) => text
  }

  /** The number reads back from its own text. */
  predicate Legible(other: Reading, x: Number) {
    ParseNumber(other, Show(x)) == Some(x)
  }

  lemma WholeIsLegible(other: Reading, n: nat)
    requires n <= MAX_SAFE
    ensures Legible(other, Whole(n))
  {
    DecimalRoundTrip(n);
  }

  /** JavaScript's promise about printing: what any text reads as, reads back from its own text. */
  ghost predicate Canonical(other: Reading) {
    forall s :: other(s).Some? ==> Legible(other, other(s).value)
  }

  lemma ParsedIsLegible(other: Reading, s: string)
    requires Canonical(other)
    ensures ParseNumber(other, s).Some? ==> Legible(other, ParseNumber(other, s).value)
  {
    if s != "" && AllDigits(s) && DecimalValue(s) <= MAX_SAFE { WholeIsLegible(other, DecimalValue(s)); }
  }

  // ---- the schema ----

  datatype Field = PageF | PageSizeF | SearchF | PlanF | StatusF | UsageMinF | UsageMaxF | RetentionMinF | RetentionMaxF
    | DateFromF | DateToF | SortByF | SortDirF

  type Query = map<Field, string>

  datatype Clients = Clients(page: Number, pageSize: Number, search: string, plan: seq<string>, status: seq<string>,
                             usageMin: Number, usageMax: Number, retentionMin: Number, retentionMax: Number,
                             dateFrom: string, dateTo: string, sortBy: string, sortDir: string)

  /** The names a sort parameter may take, and the default among them. */
  datatype Choice = Choice(options: seq<string>, default: string)

  datatype Schema = Schema(sortBy: Choice, sortDir: Choice)

  predicate PageOk(x: Number) { x.Whole? && x.n >= 1 }

  predicate PageSizeOk(x: Number) { x.Whole? && 10 <= x.n <= 100 }

  predicate AmountOk(x: Number) { x.Whole? || !x.negative }

  function ReadNumber(other: Reading, q: Query, f: Field, ok: Number -> bool, default: Number): Number {
    var parsed := if f in q then ParseNumber(other, q[f]) else None;
    if parsed.Some? && ok(parsed.value) then parsed.value else default
  }

  function ReadText(q: Query, f: Field): string {
    if f in q then q[f] else ""
  }

  function ReadList(q: Query, f: Field): seq<string> {
    if f in q then ParseList(q[f]) else []
  }

  function ReadChoice(q: Query, f: Field, c: Choice): string {
    if f in q && q[f] in c.options then q[f] else c.default
  }

  function Parse(other: Reading, schema: Schema, q: Query): Clients {
    Clients(ReadNumber(other, q, PageF, PageOk, Whole(1)), ReadNumber(other, q, PageSizeF, PageSizeOk, Whole(20)),
            ReadText(q, SearchF), ReadList(q, PlanF), ReadList(q, StatusF),
            ReadNumber(other, q, UsageMinF, AmountOk, Whole(0)), ReadNumber(other, q, UsageMaxF, AmountOk, Whole(120)),
            ReadNumber(other, q, RetentionMinF, AmountOk, Whole(0)), ReadNumber(other, q, RetentionMaxF, AmountOk, Whole(400)),
            ReadText(q, DateFromF), ReadText(q, DateToF),
            ReadChoice(q, SortByF, schema.sortBy), ReadChoice(q, SortDirF, schema.sortDir))
  }

  /** The value the URL carries for a field: none when it is the default. */
  function Entry(schema: Schema, v: Clients, f: Field): Option<string> {
    match f
    case PageF => Unless(v.page == Whole(1), Show(v.page))
    case PageSizeF => Unless(v.pageSize == Whole(20), Show(v.pageSize))
    case SearchF => Unless(v.search == "", v.search)
    case PlanF => Unless(v.plan == [], Csv.Join(v.plan, ','))
    case StatusF => Unless(v.status == [], Csv.Join(v.status, ','))
    case UsageMinF => Unless(v.usageMin == Whole(0), Show(v.usageMin))
    case UsageMaxF => Unless(v.usageMax == Whole(120), Show(v.usageMax))
    case RetentionMinF => Unless(v.retentionMin == Whole(0), Show(v.retentionMin))
    case RetentionMaxF => Unless(v.retentionMax == Whole(400), Show(v.retentionMax))
    case DateFromF => Unless(v.dateFrom == "", v.dateFrom)
    case DateToF => Unless(v.dateTo == "", v.dateTo)
    case SortByF => Unless(v.sortBy == schema.sortBy.default, v.sortBy)
    case SortDirF => Unless(v.sortDir == schema.sortDir.default, v.sortDir)
  }

  function Unless(omit: bool, text: string): Option<string> {
    if omit then None else Some(text)
  }

  /** The query carries exactly the entries of `v`. */
  predicate Carries(q: Query, schema: Schema, v: Clients) {
    forall f :: (f in q <==> Entry(schema, v, f).Some?) && (f in q ==> q[f] == Entry(schema, v, f).value)
  }

  /** The order in which the fields are written. */
  function Rank(f: Field): nat {
    match f
    case PageF => 0 case PageSizeF => 1 case SearchF => 2 case PlanF => 3 case StatusF => 4 case UsageMinF => 5
    case UsageMaxF => 6 case RetentionMinF => 7 case RetentionMaxF => 8 case DateFromF => 9 case DateToF => 10
    case SortByF => 11 case SortDirF => 12
  }

  predicate CarriesFirst(q: Query, schema: Schema, v: Clients, n: nat) {
    forall f :: (f in q <==> Rank(f) < n && Entry(schema, v, f).Some?) && (f in q ==> q[f] == Entry(schema, v, f).value)
  }

  lemma RankIsInjective(f: Field, g: Field)
    ensures Rank(f) == Rank(g) ==> f == g
    ensures Rank(f) < 13
  {
  }

  lemma SetStep(q: Query, schema: Schema, v: Clients, f: Field, q': Query)
    requires CarriesFirst(q, schema, v, Rank(f))
    requires q' == if Entry(schema, v, f).Some? then q[f := Entry(schema, v, f).value] else q
    ensures CarriesFirst(q', schema, v, Rank(f) + 1)
  {
    hide Entry, Rank;
    forall g ensures (g in q' <==> Rank(g) < Rank(f) + 1 && Entry(schema, v, g).Some?) && (g in q' ==> q'[g] == Entry(schema, v, g).value) {
      RankIsInjective(f, g);
    }
  }

  lemma AllCarried(q: Query, schema: Schema, v: Clients)
    requires CarriesFirst(q, schema, v, 13)
    ensures Carries(q, schema, v)
  {
    hide Entry, Rank;
    forall f ensures Rank(f) < 13 { RankIsInjective(f, f); }
  }

  /** One `if` of the builder. */
  method SetIf(q: Query, differs: bool, f: Field, text: string, ghost schema: Schema, ghost v: Clients) returns (r: Query)
    requires CarriesFirst(q, schema, v, Rank(f)) && Entry(schema, v, f) == Unless(!differs, text)
    ensures CarriesFirst(r, schema, v, Rank(f) + 1)
  {
    hide CarriesFirst, Entry;
    r := q;
    if differs { r := q[f := text]; }
    SetStep(q, schema, v, f, r);
  }

  method SetFilters(q0: Query, schema: Schema, v: Clients) returns (q: Query)
    requires CarriesFirst(q0, schema, v, 0)
    ensures CarriesFirst(q, schema, v, 5)
  {
    hide Show, Csv.Join, CarriesFirst;
    q := q0;
    q := SetIf(q, v.page != Whole(1), PageF, Show(v.page), schema, v);
    q := SetIf(q, v.pageSize != Whole(20), PageSizeF, Show(v.pageSize), schema, v);
    q := SetIf(q, v.search != "", SearchF, v.search, schema, v);
    q := SetIf(q, |v.plan| > 0, PlanF, Csv.Join(v.plan, ','), schema, v);
    q := SetIf(q, |v.status| > 0, StatusF, Csv.Join(v.status, ','), schema, v);
  }

  method SetRanges(q0: Query, schema: Schema, v: Clients) returns (q: Query)
    requires CarriesFirst(q0, schema, v, 5)
    ensures CarriesFirst(q, schema, v, 9)
  {
    hide Show, Csv.Join, CarriesFirst;
    q := q0;
    q := SetIf(q, v.usageMin != Whole(0), UsageMinF, Show(v.usageMin), schema, v);
    q := SetIf(q, v.usageMax != Whole(120), UsageMaxF, Show(v.usageMax), schema, v);
    q := SetIf(q, v.retentionMin != Whole(0), RetentionMinF, Show(v.retentionMin), schema, v);
    q := SetIf(q, v.retentionMax != Whole(400), RetentionMaxF, Show(v.retentionMax), schema, v);
  }

  method SetDatesAndOrder(q0: Query, schema: Schema, v: Clients) returns (q: Query)
    requires CarriesFirst(q0, schema, v, 9)
    ensures CarriesFirst(q, schema, v, 13)
  {
    hide Show, Csv.Join, CarriesFirst;
    q := q0;
    q := SetIf(q, v.dateFrom != "", DateFromF, v.dateFrom, schema, v);
    q := SetIf(q, v.dateTo != "", DateToF, v.dateTo, schema, v);
    q := SetIf(q, v.sortBy != schema.sortBy.default, SortByF, v.sortBy, schema, v);
    q := SetIf(q, v.sortDir != schema.sortDir.default, SortDirF, v.sortDir, schema, v);
  }

  /** The builder: only what differs from the defaults is written. */
  method Build(schema: Schema, v: Clients) returns (q: Query)
    ensures Carries(q, schema, v)
  {
    hide CarriesFirst, Carries;
    NothingCarried(schema, v);
    q := SetFilters(map[], schema, v);
    q := SetRanges(q, schema, v);
    q := SetDatesAndOrder(q, schema, v);
    AllCarried(q, schema, v);
  }

  lemma NothingCarried(schema: Schema, v: Clients)
    ensures CarriesFirst(map[], schema, v, 0)
  {
  }

  /** In range: each number allowed and legible, lists of non-empty comma-free parts, choices among the options. */
  predicate InRange(other: Reading, schema: Schema, v: Clients) {
    && PageOk(v.page) && Legible(other, v.page) && PageSizeOk(v.pageSize) && Legible(other, v.pageSize)
    && AmountOk(v.usageMin) && Legible(other, v.usageMin) && AmountOk(v.usageMax) && Legible(other, v.usageMax)
    && AmountOk(v.retentionMin) && Legible(other, v.retentionMin) && AmountOk(v.retentionMax) && Legible(other, v.retentionMax)
    && Clean(v.plan) && Clean(v.status) && v.sortBy in schema.sortBy.options && v.sortDir in schema.sortDir.options
  }

  predicate GoodSchema(schema: Schema) {
    schema.sortBy.default in schema.sortBy.options && schema.sortDir.default in schema.sortDir.options
  }

  lemma NumberSurvives(other: Reading, q: Query, f: Field, ok: Number -> bool, n: nat, x: Number)
    requires n <= MAX_SAFE && ok(Whole(n))
    requires if x == Whole(n) then f !in q else f in q && q[f] == Show(x)
    ensures ReadNumber(other, q, f, ok, Whole(n)) == x <==> ok(x) && Legible(other, x)
  {
    hide ParseNumber, Show;
    WholeIsLegible(other, n);
  }

  lemma ListSurvives(q: Query, f: Field, parts: seq<string>)
    requires if parts == [] then f !in q else f in q && q[f] == Csv.Join(parts, ',')
    ensures ReadList(q, f) == parts <==> Clean(parts)
  {
    hide Clean, ParseList;
    ListRoundTrip(parts);
    if parts == [] { EmptyIsClean(); }
  }

  lemma EmptyIsClean()
    ensures Clean([])
  {
  }

  lemma NumbersSurvive(other: Reading, schema: Schema, v: Clients, q: Query)
    requires Carries(q, schema, v)
    ensures ReadNumber(other, q, PageF, PageOk, Whole(1)) == v.page <==> PageOk(v.page) && Legible(other, v.page)
    ensures ReadNumber(other, q, PageSizeF, PageSizeOk, Whole(20)) == v.pageSize <==> PageSizeOk(v.pageSize) && Legible(other, v.pageSize)
    ensures ReadNumber(other, q, UsageMinF, AmountOk, Whole(0)) == v.usageMin <==> AmountOk(v.usageMin) && Legible(other, v.usageMin)
    ensures ReadNumber(other, q, UsageMaxF, AmountOk, Whole(120)) == v.usageMax <==> AmountOk(v.usageMax) && Legible(other, v.usageMax)
    ensures ReadNumber(other, q, RetentionMinF, AmountOk, Whole(0)) == v.retentionMin
            <==> AmountOk(v.retentionMin) && Legible(other, v.retentionMin)
    ensures ReadNumber(other, q, RetentionMaxF, AmountOk, Whole(400)) == v.retentionMax
            <==> AmountOk(v.retentionMax) && Legible(other, v.retentionMax)
  {
    hide Legible, Show, ReadNumber, Carries;
    CarriesField(q, schema, v, PageF);
    CarriesField(q, schema, v, PageSizeF);
    CarriesField(q, schema, v, UsageMinF);
    CarriesField(q, schema, v, UsageMaxF);
    CarriesField(q, schema, v, RetentionMinF);
    CarriesField(q, schema, v, RetentionMaxF);
    NumberSurvives(other, q, PageF, PageOk, 1, v.page);
    NumberSurvives(other, q, PageSizeF, PageSizeOk, 20, v.pageSize);
    NumberSurvives(other, q, UsageMinF, AmountOk, 0, v.usageMin);
    NumberSurvives(other, q, UsageMaxF, AmountOk, 120, v.usageMax);
    NumberSurvives(other, q, RetentionMinF, AmountOk, 0, v.retentionMin);
    NumberSurvives(other, q, RetentionMaxF, AmountOk, 400, v.retentionMax);
  }

  lemma TextsSurvive(schema: Schema, v: Clients, q: Query)
    requires Carries(q, schema, v) && GoodSchema(schema)
    ensures ReadText(q, SearchF) == v.search && ReadText(q, DateFromF) == v.dateFrom && ReadText(q, DateToF) == v.dateTo
    ensures ReadList(q, PlanF) == v.plan <==> Clean(v.plan)
    ensures ReadList(q, StatusF) == v.status <==> Clean(v.status)
    ensures ReadChoice(q, SortByF, schema.sortBy) == v.sortBy <==> v.sortBy in schema.sortBy.options
    ensures ReadChoice(q, SortDirF, schema.sortDir) == v.sortDir <==> v.sortDir in schema.sortDir.options
  {
    hide Csv.Join, Clean, ReadList, Carries;
    CarriesField(q, schema, v, SearchF);
    CarriesField(q, schema, v, DateFromF);
    CarriesField(q, schema, v, DateToF);
    CarriesField(q, schema, v, PlanF);
    CarriesField(q, schema, v, StatusF);
    CarriesField(q, schema, v, SortByF);
    CarriesField(q, schema, v, SortDirF);
    ListSurvives(q, PlanF, v.plan);
    ListSurvives(q, StatusF, v.status);
  }

  /** Building and parsing gives back a value exactly when it is in range. */
  lemma ParseAfterBuild(other: Reading, schema: Schema, v: Clients, q: Query)
    requires GoodSchema(schema) && Carries(q, schema, v)
    ensures Parse(other, schema, q) == v <==> InRange(other, schema, v)
  {
    hide Legible, Clean, ReadNumber, ReadList, ReadText, ReadChoice, Carries, PageOk, PageSizeOk, AmountOk, GoodSchema;
    NumbersSurvive(other, schema, v, q);
    TextsSurvive(schema, v, q);
  }

  lemma CarriesField(q: Query, schema: Schema, v: Clients, f: Field)
    requires Carries(q, schema, v)
    ensures (f in q <==> Entry(schema, v, f).Some?) && (f in q ==> q[f] == Entry(schema, v, f).value)
  {
  }

  lemma ReadNumberIsLegible(other: Reading, q: Query, f: Field, ok: Number -> bool, n: nat)
    requires Canonical(other) && n <= MAX_SAFE && ok(Whole(n))
    ensures var x := ReadNumber(other, q, f, ok, Whole(n)); ok(x) && Legible(other, x)
  {
    hide ParseNumber, Canonical;
    WholeIsLegible(other, n);
    if f in q { ParsedIsLegible(other, q[f]); }
  }

  lemma ReadListIsClean(q: Query, f: Field)
    ensures Clean(ReadList(q, f))
  {
    if f in q {
      SplitHasNoCommas(q[f]);
      NonEmptyIsClean(Split(q[f]));
    }
  }

  /** Whatever the URL, parsing it gives a value in range. */
  lemma ParsedIsInRange(other: Reading, schema: Schema, q: Query)
    requires Canonical(other) && GoodSchema(schema)
    ensures InRange(other, schema, Parse(other, schema, q))
  {
    hide Legible, Clean, ReadNumber, ReadList, Canonical;
    ReadNumberIsLegible(other, q, PageF, PageOk, 1);
    ReadNumberIsLegible(other, q, PageSizeF, PageSizeOk, 20);
    ReadNumberIsLegible(other, q, UsageMinF, AmountOk, 0);
    ReadNumberIsLegible(other, q, UsageMaxF, AmountOk, 120);
    ReadNumberIsLegible(other, q, RetentionMinF, AmountOk, 0);
    ReadNumberIsLegible(other, q, RetentionMaxF, AmountOk, 400);
    ReadListIsClean(q, PlanF);
    ReadListIsClean(q, StatusF);
  }

  /** Parsing, building and parsing again changes nothing, for every URL. */
  lemma ParseBuildParse(other: Reading, schema: Schema, url: Query, q: Query)
    requires Canonical(other) && GoodSchema(schema)
    requires Carries(q, schema, Parse(other, schema, url))
    ensures Parse(other, schema, q) == Parse(other, schema, url)
  {
    hide Parse, Carries, InRange, Canonical;
    ParsedIsInRange(other, schema, url);
    ParseAfterBuild(other, schema, Parse(other, schema, url), q);
  }

  const CLIENTS := Schema(
    Choice(["name", "client_id", "plan", "status", "active_users", "monthly_ticket_usage", "memory_retention_days",
            "rate_limit_per_minute", "created_at"], "created_at"),
    Choice(["asc", "desc"], "desc"))

  lemma ClientsSchemaIsGood()
    ensures GoodSchema(CLIENTS)
  {
    assert CLIENTS.sortBy.options[8] == "created_at" && CLIENTS.sortDir.options[1] == "desc";
  }

  /** The round trips at the fields the client list sorts by. */
  lemma ClientsUrlsSurvive(other: Reading, url: Query, q: Query)
    requires Canonical(other) && Carries(q, CLIENTS, Parse(other, CLIENTS, url))
    ensures Parse(other, CLIENTS, q) == Parse(other, CLIENTS, url)
  {
    hide Parse, Carries, Canonical, CLIENTS;
    ClientsSchemaIsGood();
    ParseBuildParse(other, CLIENTS, url, q);
  }

  lemma ClientsComeBack(other: Reading, v: Clients, q: Query)
    requires Carries(q, CLIENTS, v)
    ensures Parse(other, CLIENTS, q) == v <==> InRange(other, CLIENTS, v)
  {
    hide Parse, Carries, InRange, CLIENTS;
    ClientsSchemaIsGood();
    ParseAfterBuild(other, CLIENTS, v, q);
  }

  // ---- the page's own numbers and names ----

  /** A page without parameters. */
  lemma EmptyUrl(other: Reading)
    ensures Parse(other, CLIENTS, map[]) ==
            Clients(Whole(1), Whole(20), "", [], [], Whole(0), Whole(120), Whole(0), Whole(400), "", "", "created_at", "desc")
  {
  }

  /** Whatever the URL, the page starts at one, holds ten to a hundred clients, filters by no negative number, and sorts by
      one of nine fields in one of two directions. */
  lemma AnyUrl(other: Reading, q: Query)
    ensures var v := Parse(other, CLIENTS, q);
            && v.page.Whole? && v.page.n >= 1 && v.pageSize.Whole? && 10 <= v.pageSize.n <= 100
            && (forall x :: x in {v.usageMin, v.usageMax, v.retentionMin, v.retentionMax} && x.Other? ==> !x.negative)
            && v.sortBy in {"name", "client_id", "plan", "status", "active_users", "monthly_ticket_usage",
                            "memory_retention_days", "rate_limit_per_minute", "created_at"}
            && v.sortDir in {"asc", "desc"}
  {
    hide ParseNumber, ReadList, ReadText;
  }

  /** A query with one more field differs from the query in that field only. */
  lemma FieldsAreApart(other: Reading, q: Query, f: Field, t: string)
    ensures var v, v' := Parse(other, CLIENTS, q), Parse(other, CLIENTS, q[f := t]);
            && (f != PageF ==> v'.page == v.page) && (f != PageSizeF ==> v'.pageSize == v.pageSize)
            && (f != SearchF ==> v'.search == v.search)
            && (f != PlanF ==> v'.plan == v.plan) && (f != StatusF ==> v'.status == v.status)
            && (f != UsageMinF ==> v'.usageMin == v.usageMin) && (f != UsageMaxF ==> v'.usageMax == v.usageMax)
            && (f != RetentionMinF ==> v'.retentionMin == v.retentionMin)
            && (f != RetentionMaxF ==> v'.retentionMax == v.retentionMax)
            && (f != DateFromF ==> v'.dateFrom == v.dateFrom) && (f != DateToF ==> v'.dateTo == v.dateTo)
            && (f != SortByF ==> v'.sortBy == v.sortBy) && (f != SortDirF ==> v'.sortDir == v.sortDir)
  {
    hide Parse, CLIENTS;
    NumbersAreApart(other, CLIENTS, q, f, t);
    RangesAreApart(other, CLIENTS, q, f, t);
    TextsAreApart(other, CLIENTS, q, f, t);
    ChoicesAreApart(other, CLIENTS, q, f, t);
  }

  lemma NumbersAreApart(other: Reading, schema: Schema, q: Query, f: Field, t: string)
    ensures var v, v' := Parse(other, schema, q), Parse(other, schema, q[f := t]);
            (f != PageF ==> v'.page == v.page) && (f != PageSizeF ==> v'.pageSize == v.pageSize)
  {
    hide ReadText, ReadList, ReadChoice, ParseNumber, PageOk, PageSizeOk, AmountOk;
  }

  lemma RangesAreApart(other: Reading, schema: Schema, q: Query, f: Field, t: string)
    ensures var v, v' := Parse(other, schema, q), Parse(other, schema, q[f := t]);
            && (f != UsageMinF ==> v'.usageMin == v.usageMin) && (f != UsageMaxF ==> v'.usageMax == v.usageMax)
            && (f != RetentionMinF ==> v'.retentionMin == v.retentionMin)
            && (f != RetentionMaxF ==> v'.retentionMax == v.retentionMax)
  {
    hide ReadText, ReadList, ReadChoice, ParseNumber, PageOk, PageSizeOk, AmountOk;
  }

  lemma TextsAreApart(other: Reading, schema: Schema, q: Query, f: Field, t: string)
    ensures var v, v' := Parse(other, schema, q), Parse(other, schema, q[f := t]);
            && (f != SearchF ==> v'.search == v.search) && (f != PlanF ==> v'.plan == v.plan)
            && (f != StatusF ==> v'.status == v.status)
            && (f != DateFromF ==> v'.dateFrom == v.dateFrom) && (f != DateToF ==> v'.dateTo == v.dateTo)
  {
    hide ReadNumber, ReadChoice, ParseList;
  }

  lemma ChoicesAreApart(other: Reading, schema: Schema, q: Query, f: Field, t: string)
    ensures var v, v' := Parse(other, schema, q), Parse(other, schema, q[f := t]);
            (f != SortByF ==> v'.sortBy == v.sortBy) && (f != SortDirF ==> v'.sortDir == v.sortDir)
  {
    hide ReadNumber, ReadText, ReadList;
  }

  lemma NumberIsRead(other: Reading, q: Query, f: Field, ok: Number -> bool, default: Number, n: nat)
    requires n <= MAX_SAFE && ok(Whole(n))
    ensures ReadNumber(other, q[f := Decimal(n)], f, ok, default) == Whole(n)
  {
    hide ParseNumber, Decimal;
    WholeIsLegible(other, n);
  }

  /** A whole number in a field is read into that field, and into no other. */
  lemma NumbersGoWhereTheyBelong(other: Reading, q: Query, n: nat)
    requires n <= 9007199254740991
    ensures var v := Parse(other, CLIENTS, q);
            && (n >= 1 ==> Parse(other, CLIENTS, q[PageF := Decimal(n)]) == v.(page := Whole(n)))
            && (10 <= n <= 100 ==> Parse(other, CLIENTS, q[PageSizeF := Decimal(n)]) == v.(pageSize := Whole(n)))
  {
    hide ReadNumber, ReadList, ReadText, ReadChoice, Decimal, CLIENTS;
    FieldsAreApart(other, q, PageF, Decimal(n));
    FieldsAreApart(other, q, PageSizeF, Decimal(n));
    if n >= 1 { NumberIsRead(other, q, PageF, PageOk, Whole(1), n); }
    if 10 <= n <= 100 { NumberIsRead(other, q, PageSizeF, PageSizeOk, Whole(20), n); }
  }

  lemma RangesGoWhereTheyBelong(other: Reading, q: Query, n: nat)
    requires n <= 9007199254740991
    ensures var v := Parse(other, CLIENTS, q);
            && Parse(other, CLIENTS, q[UsageMinF := Decimal(n)]) == v.(usageMin := Whole(n))
            && Parse(other, CLIENTS, q[UsageMaxF := Decimal(n)]) == v.(usageMax := Whole(n))
            && Parse(other, CLIENTS, q[RetentionMinF := Decimal(n)]) == v.(retentionMin := Whole(n))
            && Parse(other, CLIENTS, q[RetentionMaxF := Decimal(n)]) == v.(retentionMax := Whole(n))
  {
    hide ReadNumber, ReadList, ReadText, ReadChoice, Decimal, CLIENTS;
    FieldsAreApart(other, q, UsageMinF, Decimal(n));
    FieldsAreApart(other, q, UsageMaxF, Decimal(n));
    FieldsAreApart(other, q, RetentionMinF, Decimal(n));
    FieldsAreApart(other, q, RetentionMaxF, Decimal(n));
    NumberIsRead(other, q, UsageMinF, AmountOk, Whole(0), n);
    NumberIsRead(other, q, UsageMaxF, AmountOk, Whole(120), n);
    NumberIsRead(other, q, RetentionMinF, AmountOk, Whole(0), n);
    NumberIsRead(other, q, RetentionMaxF, AmountOk, Whole(400), n);
  }

  /** So are texts and lists. */
  lemma TextsGoWhereTheyBelong(other: Reading, q: Query, s: string, parts: seq<string>)
    ensures var v := Parse(other, CLIENTS, q);
            && Parse(other, CLIENTS, q[SearchF := s]) == v.(search := s)
            && Parse(other, CLIENTS, q[DateFromF := s]) == v.(dateFrom := s)
            && Parse(other, CLIENTS, q[DateToF := s]) == v.(dateTo := s)
            && (Clean(parts) ==>
                  && Parse(other, CLIENTS, q[PlanF := Csv.Join(parts, ',')]) == v.(plan := parts)
                  && Parse(other, CLIENTS, q[StatusF := Csv.Join(parts, ',')]) == v.(status := parts))
  {
    hide ReadNumber, ReadChoice, ParseList, Csv.Join, Clean, CLIENTS;
    FieldsAreApart(other, q, SearchF, s);
    FieldsAreApart(other, q, DateFromF, s);
    FieldsAreApart(other, q, DateToF, s);
    FieldsAreApart(other, q, PlanF, Csv.Join(parts, ','));
    FieldsAreApart(other, q, StatusF, Csv.Join(parts, ','));
    if Clean(parts) { ListRoundTrip(parts); }
  }

  /** So is a sort field or direction that the page has. */
  lemma OrderGoesWhereItBelongs(other: Reading, q: Query, s: string)
    ensures var v := Parse(other, CLIENTS, q);
            && (s in {"name", "client_id", "plan", "status", "active_users", "monthly_ticket_usage", "memory_retention_days",
                      "rate_limit_per_minute", "created_at"} ==>
                  Parse(other, CLIENTS, q[SortByF := s]) == v.(sortBy := s))
            && (s in {"asc", "desc"} ==> Parse(other, CLIENTS, q[SortDirF := s]) == v.(sortDir := s))
  {
    hide ReadNumber, ReadList, ReadText, CLIENTS;
    FieldsAreApart(other, q, SortByF, s);
    FieldsAreApart(other, q, SortDirF, s);
    SortNames(s);
  }

  /** What is read where a field is missing. */
  lemma MissingField(other: Reading, q: Query, f: Field)
    requires f !in q
    ensures var v := Parse(other, CLIENTS, q);
            match f
            case PageF => v.page == Whole(1)
            case PageSizeF => v.pageSize == Whole(20)
            case SearchF => v.search == ""
            case PlanF => v.plan == []
            case StatusF => v.status == []
            case UsageMinF => v.usageMin == Whole(0)
            case UsageMaxF => v.usageMax == Whole(120)
            case RetentionMinF => v.retentionMin == Whole(0)
            case RetentionMaxF => v.retentionMax == Whole(400)
            case DateFromF => v.dateFrom == ""
            case DateToF => v.dateTo == ""
            case SortByF => v.sortBy == "created_at"
            case SortDirF => v.sortDir == "desc"
  {
    hide ParseNumber, ParseList;
  }

  /** The URL carries no field it could do without. */
  lemma NoFieldIsIdle(other: Reading, v: Clients, q: Query, f: Field)
    requires Carries(q, CLIENTS, v) && f in q
    ensures Parse(other, CLIENTS, q - {f}) != v
  {
    hide Parse, Show, Csv.Join, Carries;
    CarriesField(q, CLIENTS, v, f);
    MissingField(other, q - {f}, f);
  }

  lemma SortNames(s: string)
    ensures (s in {"name", "client_id", "plan", "status", "active_users", "monthly_ticket_usage", "memory_retention_days",
                   "rate_limit_per_minute", "created_at"}) ==> s in CLIENTS.sortBy.options
    ensures s in {"asc", "desc"} ==> s in CLIENTS.sortDir.options
  {
    var o := CLIENTS.sortBy.options;
    assert o[0] == "name" && o[1] == "client_id" && o[2] == "plan" && o[3] == "status" && o[4] == "active_users";
    assert o[5] == "monthly_ticket_usage" && o[6] == "memory_retention_days" && o[7] == "rate_limit_per_minute";
    assert o[8] == "created_at";
    assert CLIENTS.sortDir.options[0] == "asc" && CLIENTS.sortDir.options[1] == "desc";
  }
}
