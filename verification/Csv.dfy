/** The CSV export of the dashboard (dashboard/src/features/experiments/export.ts), against a reader that follows
    section 2 of RFC 4180, with a line feed between records. */
module Csv {
  import opened Values

  type Grid = seq<seq<string>>

  predicate NeedsQuotes(value: string) {
    '"' in value || ',' in value || '\n' in value
  }

  function Doubled(value: string): string {
    if value == "" then "" else (if value[0] == '"' then ['"', '"'] else [value[0]]) + Doubled(value[1..])
  }

  function Escape(value: string): string {
    if NeedsQuotes(value) then ['"'] + Doubled(value) + ['"'] else value
  }

  function Join(parts: seq<string>, separator: char): string {
    if parts == [] then "" else if |parts| == 1 then parts[0] else parts[0] + ([separator] + Join(parts[1..], separator))
  }

  function EscapeCells(cells: seq<string>): (r: seq<string>)
    ensures |r| == |cells| && forall k :: 0 <= k < |r| ==> r[k] == Escape(cells[k])
  {
    if cells == [] then [] else [Escape(cells[0])] + EscapeCells(cells[1..])
  }

  function Lines(rows: Grid): (r: seq<string>)
    ensures |r| == |rows| && forall k :: 0 <= k < |r| ==> r[k] == Join(EscapeCells(rows[k]), ',')
  {
    if rows == [] then [] else [Join(EscapeCells(rows[0]), ',')] + Lines(rows[1..])
  }

  function Write(rows: Grid): string {
    Join(Lines(rows), '\n')
  }

  // ---- the reader ----

  datatype Place = FieldStart | Plain | Quoted | AfterQuote

  /** Where the reader is: the field so far, the finished fields of the record, the finished records. `Malformed` is for
      a quote inside a plain field and for text after a closing quote. */
  datatype Reader = Reader(place: Place, field: string, row: seq<string>, rows: Grid) | Malformed

  function Feed(r: Reader, c: char): Reader {
    if r.Malformed? then r
    else if r.place == Quoted then
      if c == '"' then r.(place := AfterQuote) else r.(field := r.field + [c])
    else if c == ',' then Reader(FieldStart, "", r.row + [r.field], r.rows)
    else if c == '\n' then Reader(FieldStart, "", [], r.rows + [r.row + [r.field]])
    else if c == '"' then
      if r.place == FieldStart then r.(place := Quoted)
      else if r.place == AfterQuote then r.(place := Quoted, field := r.field + ['"'])
      else Malformed
    else if r.place == AfterQuote then Malformed
    else r.(place := Plain, field := r.field + [c])
  }

  function FeedAll(r: Reader, s: string): Reader
    decreases |s|
  {
    if s == "" then r else FeedAll(Feed(r, s[0]), s[1..])
  }

  /** The records of a text, None when it is malformed or ends inside quotes. */
  function Read(s: string): Option<Grid> {
    var r := FeedAll(Reader(FieldStart, "", [], []), s);
    if r.Malformed? || r.place == Quoted then None else Some(r.rows + [r.row + [r.field]])
  }

  lemma {:induction false} FeedAppend(r: Reader, s: string, t: string)
    ensures FeedAll(r, s + t) == FeedAll(FeedAll(r, s), t)
    decreases |s|
  {
    hide Feed;
    if s == "" {
      assert s + t == t;
    } else {
      assert (s + t)[1..] == s[1..] + t;
      FeedAppend(Feed(r, s[0]), s[1..], t);
    }
  }

  lemma FeedOne(r: Reader, c: char)
    ensures FeedAll(r, [c]) == Feed(r, c)
  {
    assert [c][1..] == "";
    assert FeedAll(Feed(r, c), "") == Feed(r, c);
  }

  /** A field has been read whole. */
  predicate HasField(r: Reader, value: string, row: seq<string>, rows: Grid) {
    r.Reader? && r.place != Quoted && r.field == value && r.row == row && r.rows == rows
  }

  lemma {:induction false} FeedPlain(value: string, before: string, place: Place, row: seq<string>, rows: Grid)
    requires !NeedsQuotes(value) && (place == Plain || place == FieldStart)
    ensures HasField(FeedAll(Reader(place, before, row, rows), value), before + value, row, rows)
  {
    if value == "" {
      assert before + value == before;
    } else {
      assert value == [value[0]] + value[1..];
      FeedPlain(value[1..], before + [value[0]], Plain, row, rows);
      assert before + [value[0]] + value[1..] == before + value;
    }
  }

  lemma {:induction false} FeedDoubled(value: string, before: string, row: seq<string>, rows: Grid)
    ensures FeedAll(Reader(Quoted, before, row, rows), Doubled(value)) == Reader(Quoted, before + value, row, rows)
  {
    if value == "" {
      assert before + value == before;
    } else {
      var d := Doubled(value);
      FeedDoubled(value[1..], before + [value[0]], row, rows);
      assert before + [value[0]] + value[1..] == before + value;
      if value[0] == '"' {
        assert d[1..][1..] == Doubled(value[1..]);
      } else {
        assert d[1..] == Doubled(value[1..]);
      }
    }
  }

  /** A written cell reads back as the cell. */
  lemma FeedCell(value: string, row: seq<string>, rows: Grid)
    ensures HasField(FeedAll(Reader(FieldStart, "", row, rows), Escape(value)), value, row, rows)
  {
    hide FeedAll, Doubled;
    var start := Reader(FieldStart, "", row, rows);
    if NeedsQuotes(value) {
      FeedAppend(start, ['"'] + Doubled(value), ['"']);
      FeedAppend(start, ['"'], Doubled(value));
      FeedOne(start, '"');
      FeedDoubled(value, "", row, rows);
      assert "" + value == value;
      FeedOne(Reader(Quoted, value, row, rows), '"');
    } else {
      FeedPlain(value, "", FieldStart, row, rows);
      assert "" + value == value;
    }
  }

  /** A written cell and its comma read back as a finished field. */
  lemma FeedField(value: string, row: seq<string>, rows: Grid, rest: string)
    ensures FeedAll(Reader(FieldStart, "", row, rows), Escape(value) + ([','] + rest)) ==
            FeedAll(Reader(FieldStart, "", row + [value], rows), rest)
  {
    hide FeedAll, Escape;
    var start := Reader(FieldStart, "", row, rows);
    FeedCell(value, row, rows);
    FeedAppend(start, Escape(value), [','] + rest);
    FeedAppend(FeedAll(start, Escape(value)), [','], rest);
    FeedOne(FeedAll(start, Escape(value)), ',');
  }

  lemma LineStep(cells: seq<string>)
    requires cells != []
    ensures Join(EscapeCells(cells), ',') ==
            Escape(cells[0]) + if |cells| == 1 then "" else [','] + Join(EscapeCells(cells[1..]), ',')
  {
    hide Escape;
    assert EscapeCells(cells)[1..] == EscapeCells(cells[1..]);
  }

  /** A written line reads back as its cells, the last of them still open. */
  lemma {:induction false} FeedLine(cells: seq<string>, row: seq<string>, rows: Grid)
    requires cells != []
    ensures var n := |cells| - 1;
            HasField(FeedAll(Reader(FieldStart, "", row, rows), Join(EscapeCells(cells), ',')), cells[n], row + cells[..n], rows)
  {
    hide FeedAll, Escape, Join, EscapeCells, HasField;
    var n := |cells| - 1;
    LineStep(cells);
    if n == 0 {
      FeedCell(cells[0], row, rows);
      assert row + cells[..n] == row;
      assert Join(EscapeCells(cells), ',') == Escape(cells[0]);
    } else {
      FeedField(cells[0], row, rows, Join(EscapeCells(cells[1..]), ','));
      FeedLine(cells[1..], row + [cells[0]], rows);
      assert row + [cells[0]] + cells[1..][..n - 1] == row + cells[..n];
    }
  }

  /** A written line and its line feed read back as a finished record. */
  lemma FeedRecord(cells: seq<string>, rows: Grid, rest: string)
    requires cells != []
    ensures FeedAll(Reader(FieldStart, "", [], rows), Join(EscapeCells(cells), ',') + (['\n'] + rest)) ==
            FeedAll(Reader(FieldStart, "", [], rows + [cells]), rest)
  {
    hide FeedAll, EscapeCells, Join;
    var start, line, n := Reader(FieldStart, "", [], rows), Join(EscapeCells(cells), ','), |cells| - 1;
    FeedLine(cells, [], rows);
    assert [] + cells[..n] + [cells[n]] == cells;
    FeedAppend(start, line, ['\n'] + rest);
    FeedAppend(FeedAll(start, line), ['\n'], rest);
    FeedOne(FeedAll(start, line), '\n');
  }

  lemma WriteStep(grid: Grid)
    requires grid != []
    ensures Write(grid) == Join(EscapeCells(grid[0]), ',') + if |grid| == 1 then "" else ['\n'] + Write(grid[1..])
  {
    hide EscapeCells;
    assert Lines(grid)[1..] == Lines(grid[1..]);
  }

  /** Written records read back as the records, the last field of the last of them still open. */
  lemma {:induction false} FeedRows(grid: Grid, rows: Grid)
    requires grid != [] && forall k :: 0 <= k < |grid| ==> grid[k] != []
    ensures var last := grid[|grid| - 1];
            HasField(FeedAll(Reader(FieldStart, "", [], rows), Write(grid)), last[|last| - 1], last[..|last| - 1],
                     rows + grid[..|grid| - 1])
  {
    hide FeedAll, EscapeCells, Join, Write, HasField;
    var n, cells := |grid| - 1, grid[0];
    WriteStep(grid);
    if n == 0 {
      FeedLine(cells, [], rows);
      assert [] + cells[..|cells| - 1] == cells[..|cells| - 1];
      assert rows + grid[..n] == rows;
      assert Write(grid) == Join(EscapeCells(cells), ',');
    } else {
      FeedRecord(cells, rows, Write(grid[1..]));
      FeedRows(grid[1..], rows + [cells]);
      assert grid[1..][n - 1] == grid[n];
      assert rows + [cells] + grid[1..][..n - 1] == rows + grid[..n];
    }
  }

  /** Reading what was written gives back the grid, whatever its cells contain. */
  lemma ReadAfterWrite(grid: Grid)
    requires grid != [] && forall k :: 0 <= k < |grid| ==> grid[k] != []
    ensures Read(Write(grid)) == Some(grid)
  {
    hide FeedAll, Write;
    FeedRows(grid, []);
    var last := grid[|grid| - 1];
    assert last[..|last| - 1] + [last[|last| - 1]] == last;
    assert [] + grid[..|grid| - 1] + [last] == grid;
  }

  // ---- the export ----

  lemma PlainCellsStay(cells: seq<string>)
    requires forall k :: 0 <= k < |cells| ==> !NeedsQuotes(cells[k])
    ensures EscapeCells(cells) == cells
  {
  }

  lemma {:induction false} LinesAppend(rows: Grid, row: seq<string>)
    ensures Lines(rows + [row]) == Lines(rows) + [Join(EscapeCells(row), ',')]
  {
    hide Join, EscapeCells;
    if rows == [] {
      assert rows + [row] == [row];
    } else {
      assert (rows + [row])[1..] == rows[1..] + [row];
      LinesAppend(rows[1..], row);
    }
  }

  function CountQuotes(value: string): nat {
    if value == "" then 0 else (if value[0] == '"' then 1 else 0) + CountQuotes(value[1..])
  }

  lemma {:induction false} DoubledLength(value: string)
    ensures |Doubled(value)| == |value| + CountQuotes(value)
  {
    if value != "" { DoubledLength(value[1..]); }
  }

  /** Quotes are used only where they are needed: any other cell is written as it is. */
  lemma EscapeIsSparing(value: string)
    ensures '"' !in value && ',' !in value && '\n' !in value ==> Escape(value) == value
    ensures '"' in value || ',' in value || '\n' in value ==> |Escape(value)| == |value| + CountQuotes(value) + 2
  {
    DoubledLength(value);
  }

  /** `rowsToCsv`, for rows whose cells are already texts. The header line is joined unescaped, so it must be plain, as
      the fourteen column names are. */
  method RowsToCsv(headers: seq<string>, rows: Grid) returns (text: string)
    requires headers != [] && forall k :: 0 <= k < |headers| ==> !NeedsQuotes(headers[k])
    ensures text == Write([headers] + rows)
    ensures (forall k :: 0 <= k < |rows| ==> rows[k] != []) ==> Read(text) == Some([headers] + rows)
  {
    hide FeedAll, Join, EscapeCells;
    var lines := [Join(headers, ',')];
    PlainCellsStay(headers);
    assert [headers] + rows[..0] == [headers];
    LinesAppend([], headers);
    assert [] + [headers] == [headers];
    for i := 0 to |rows|
      invariant lines == Lines([headers] + rows[..i])
    {
      lines := lines + [Join(EscapeCells(rows[i]), ',')];
      LinesAppend([headers] + rows[..i], rows[i]);
      assert [headers] + rows[..i + 1] == [headers] + rows[..i] + [rows[i]];
    }
    assert rows[..|rows|] == rows;
    text := Join(lines, '\n');
    if forall k :: 0 <= k < |rows| ==> rows[k] != [] { ReadAfterWrite([headers] + rows); }
  }
}
