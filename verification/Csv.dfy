/** The usage export prints quoted CSV and the file preview parses delimited text, as section 2 of
    RFC 4180 lays it out. What the parser returns on a printed table is stated exactly. */
module Csv {

  datatype Table = Table(rows: seq<seq<string>>, truncated: bool)

  predicate IsDelimiter(d: char) { d == ',' || d == '\t' }

  // ---------- the parser ----------

  /** What the parser makes of the rest of the text, with the rows, cells and characters seen so far. */
  function ParseRest(
      rest: string, d: char, maxRows: nat, rows: seq<seq<string>>, row: seq<string>, cell: string, inQuotes: bool)
      : Table
    decreases |rest|
  {
    if rest == "" then
      Table(if |rows| < maxRows && (cell != "" || row != []) then rows + [row + [cell]] else rows, false)
    else if rest[0] == '"' then
      if inQuotes && |rest| > 1 && rest[1] == '"' then
        ParseRest(rest[2..], d, maxRows, rows, row, cell + "\"", inQuotes)
      else ParseRest(rest[1..], d, maxRows, rows, row, cell, !inQuotes)
    else if !inQuotes && rest[0] == d then
      ParseRest(rest[1..], d, maxRows, rows, row + [cell], "", inQuotes)
    else if !inQuotes && (rest[0] == '\n' || rest[0] == '\r') then
      var next := rest[if rest[0] == '\r' && |rest| > 1 && rest[1] == '\n' then 2 else 1..];
      if |rows| + 1 >= maxRows then Table(rows + [row + [cell]], next != "")
      else ParseRest(next, d, maxRows, rows + [row + [cell]], [], "", inQuotes)
    else
      ParseRest(rest[1..], d, maxRows, rows, row, cell + [rest[0]], inQuotes)
  }

  function Parse(content: string, d: char, maxRows: nat): Table {
    ParseRest(content, d, maxRows, [], [], "", false)
  }

  /** The loop of the parser, which skips the second quote and the line feed by moving the index by hand. */
  method ParseDelimitedRows(content: string, d: char, maxRows: nat) returns (table: Table)
    ensures table == Parse(content, d, maxRows)
  {
    var rows: seq<seq<string>>, row: seq<string>, cell, inQuotes := [], [], "", false;
    var i := 0;
    while i < |content|
      invariant i <= |content|
      invariant Parse(content, d, maxRows) == ParseRest(content[i..], d, maxRows, rows, row, cell, inQuotes)
    {
      var c := content[i];
      var doubled := i + 1 < |content| && content[i + 1] == '"';
      assert content[i..][0] == c && content[i..][1..] == content[i + 1..];
      assert i + 1 < |content| ==> content[i..][1] == content[i + 1] && content[i..][2..] == content[i + 2..];
      if c == '"' {
        if inQuotes && doubled {
          cell := cell + "\"";
          i := i + 1;
        } else {
          inQuotes := !inQuotes;
        }
      } else if !inQuotes && c == d {
        row, cell := row + [cell], "";
      } else if !inQuotes && (c == '\n' || c == '\r') {
        rows := rows + [row + [cell]];
        row, cell := [], "";
        if c == '\r' && i + 1 < |content| && content[i + 1] == '\n' {
          i := i + 1;
        }
        if |rows| >= maxRows {
          return Table(rows, i < |content| - 1);
        }
      } else {
        cell := cell + [c];
      }
      i := i + 1;
    }
    if |rows| < maxRows && (cell != "" || row != []) {
      rows := rows + [row + [cell]];
    }
    return Table(rows, false);
  }

  // ---------- the printer ----------

  function Escape(text: string): string {
    if text == "" then "" else (if text[0] == '"' then "\"\"" else [text[0]]) + Escape(text[1..])
  }

  function Cell(text: string): string { "\"" + Escape(text) + "\"" }

  function Line(cells: seq<string>, d: char): string {
    if cells == [] then "" else Cell(cells[0]) + (if |cells| == 1 then "" else [d] + Line(cells[1..], d))
  }

  function Print(rows: seq<seq<string>>, d: char): string {
    if rows == [] then "" else Line(rows[0], d) + (if |rows| == 1 then "" else "\n" + Print(rows[1..], d))
  }

  // ---------- printing, then parsing ----------

  predicate NoQuoteFirst(rest: string) { rest == "" || rest[0] != '"' }

  lemma {:induction false} ParseEscaped(
      text: string, rest: string, d: char, maxRows: nat, rows: seq<seq<string>>, row: seq<string>, cell: string)
    requires NoQuoteFirst(rest)
    ensures ParseRest(Escape(text) + "\"" + rest, d, maxRows, rows, row, cell, true) ==
      ParseRest(rest, d, maxRows, rows, row, cell + text, false)
    decreases |text|
  {
    var s := Escape(text) + "\"" + rest;
    if text == "" {
      assert s[0] == '"' && s[1..] == rest && cell + text == cell;
    } else {
      ParseEscaped(text[1..], rest, d, maxRows, rows, row, cell + [text[0]]);
      assert cell + [text[0]] + text[1..] == cell + text;
      var tail := Escape(text[1..]) + "\"" + rest;
      if text[0] == '"' {
        assert s[0] == '"' && s[1] == '"' && s[2..] == tail;
      } else {
        assert s[0] == text[0] && s[1..] == tail;
      }
    }
  }

  lemma ParseCell(text: string, rest: string, d: char, maxRows: nat, rows: seq<seq<string>>, row: seq<string>)
    requires NoQuoteFirst(rest)
    ensures ParseRest(Cell(text) + rest, d, maxRows, rows, row, "", false) ==
      ParseRest(rest, d, maxRows, rows, row, text, false)
  {
    var s := Cell(text) + rest;
    assert s[0] == '"' && s[1..] == Escape(text) + "\"" + rest;
    ParseEscaped(text, rest, d, maxRows, rows, row, "");
    assert "" + text == text;
  }

  lemma {:induction false} ParseLine(
      cells: seq<string>, rest: string, d: char, maxRows: nat, rows: seq<seq<string>>, row: seq<string>)
    requires IsDelimiter(d) && cells != [] && NoQuoteFirst(rest)
    ensures ParseRest(Line(cells, d) + rest, d, maxRows, rows, row, "", false) ==
      ParseRest(rest, d, maxRows, rows, row + cells[..|cells| - 1], cells[|cells| - 1], false)
    decreases |cells|
  {
    if |cells| == 1 {
      ParseCell(cells[0], rest, d, maxRows, rows, row);
      assert Line(cells, d) == Cell(cells[0]) && row + cells[..0] == row;
    } else {
      var tail := [d] + Line(cells[1..], d) + rest;
      assert Line(cells, d) + rest == Cell(cells[0]) + tail;
      ParseCell(cells[0], tail, d, maxRows, rows, row);
      assert tail[0] == d && tail[1..] == Line(cells[1..], d) + rest;
      ParseLine(cells[1..], rest, d, maxRows, rows, row + [cells[0]]);
      assert row + [cells[0]] + cells[1..][..|cells| - 2] == row + cells[..|cells| - 1];
    }
  }

  predicate HasCells(table: seq<seq<string>>) {
    forall i | 0 <= i < |table| :: table[i] != []
  }

  /** The last row of the text is not ended by a line feed, so a single empty cell there leaves no trace. */
  predicate EndsInvisibly(table: seq<seq<string>>) {
    table != [] && table[|table| - 1] == [""]
  }

  /** The rows the parser can see of a table, given room for `room` rows. */
  function Visible(table: seq<seq<string>>, room: nat): seq<seq<string>> {
    if |table| > room then table[..room]
    else if EndsInvisibly(table) then table[..|table| - 1]
    else table
  }

  lemma {:induction false} PrintedIsNotEmpty(table: seq<seq<string>>, d: char)
    requires HasCells(table) && table != []
    ensures Print(table, d) != ""
  {
    assert Line(table[0], d) != "";
  }

  /** A line feed outside quotes ends the row, and the scan if that was the last row there is room for. */
  lemma ParseBreak(next: string, d: char, maxRows: nat, rows: seq<seq<string>>, row: seq<string>, cell: string)
    requires IsDelimiter(d)
    ensures ParseRest("\n" + next, d, maxRows, rows, row, cell, false) ==
      if |rows| + 1 >= maxRows then Table(rows + [row + [cell]], next != "")
      else ParseRest(next, d, maxRows, rows + [row + [cell]], [], "", false)
  {
    assert ("\n" + next)[1..] == next;
  }

  /** A printed first line and the line feed after it add one row. */
  lemma ParseFirstLine(cells: seq<string>, next: string, d: char, maxRows: nat, rows: seq<seq<string>>)
    requires IsDelimiter(d) && cells != []
    ensures ParseRest(Line(cells, d) + ("\n" + next), d, maxRows, rows, [], "", false) ==
      if |rows| + 1 >= maxRows then Table(rows + [cells], next != "")
      else ParseRest(next, d, maxRows, rows + [cells], [], "", false)
  {
    hide ParseRest, Line;
    var last := |cells| - 1;
    assert [] + cells[..last] + [cells[last]] == cells;
    ParseLine(cells, "\n" + next, d, maxRows, rows, []);
    ParseBreak(next, d, maxRows, rows, [] + cells[..last], cells[last]);
  }

  lemma ParseLastLine(cells: seq<string>, d: char, maxRows: nat, rows: seq<seq<string>>)
    requires IsDelimiter(d) && cells != [] && |rows| < maxRows
    ensures ParseRest(Line(cells, d), d, maxRows, rows, [], "", false) ==
      Table(if cells == [""] then rows else rows + [cells], false)
  {
    var last := |cells| - 1;
    assert [] + cells[..last] + [cells[last]] == cells;
    ParseLine(cells, "", d, maxRows, rows, []);
    assert Line(cells, d) + "" == Line(cells, d);
  }

  lemma VisibleTail(table: seq<seq<string>>, room: nat)
    requires |table| > 1 && room > 1
    ensures Visible(table, room) == [table[0]] + Visible(table[1..], room - 1)
  {
  }

  lemma {:induction false} ParsePrinted(table: seq<seq<string>>, d: char, maxRows: nat, rows: seq<seq<string>>)
    requires IsDelimiter(d) && HasCells(table) && |rows| < maxRows
    ensures ParseRest(Print(table, d), d, maxRows, rows, [], "", false) ==
      Table(rows + Visible(table, maxRows - |rows|), |table| > maxRows - |rows|)
    decreases |table|
  {
    hide Line, ParseRest, Visible, Print;
    if |table| <= 1 {
      ParseShortTable(table, d, maxRows, rows);
    } else {
      ParsePrintedStep(table, d, maxRows, rows);
      if |rows| + 1 < maxRows {
        ParsePrinted(table[1..], d, maxRows, rows + [table[0]]);
        VisibleTail(table, maxRows - |rows|);
        assert rows + [table[0]] + Visible(table[1..], maxRows - |rows| - 1) == rows + Visible(table, maxRows - |rows|);
      } else {
        OneVisible(table);
      }
    }
  }

  lemma OneVisible(table: seq<seq<string>>)
    requires |table| > 1
    ensures Visible(table, 1) == [table[0]]
  {
  }

  lemma ParseShortTable(table: seq<seq<string>>, d: char, maxRows: nat, rows: seq<seq<string>>)
    requires IsDelimiter(d) && HasCells(table) && |rows| < maxRows && |table| <= 1
    ensures ParseRest(Print(table, d), d, maxRows, rows, [], "", false) ==
      Table(rows + Visible(table, maxRows - |rows|), false)
  {
    hide Line;
    if table == [] {
      assert rows + Visible(table, maxRows - |rows|) == rows;
    } else {
      ParseLastLine(table[0], d, maxRows, rows);
      assert Print(table, d) == Line(table[0], d) + "" == Line(table[0], d);
      assert rows + Visible(table, maxRows - |rows|) == if table[0] == [""] then rows else rows + [table[0]];
    }
  }

  lemma ParsePrintedStep(table: seq<seq<string>>, d: char, maxRows: nat, rows: seq<seq<string>>)
    requires IsDelimiter(d) && HasCells(table) && |table| > 1
    ensures ParseRest(Print(table, d), d, maxRows, rows, [], "", false) ==
      if |rows| + 1 >= maxRows then Table(rows + [table[0]], true)
      else ParseRest(Print(table[1..], d), d, maxRows, rows + [table[0]], [], "", false)
  {
    hide ParseRest, Line;
    PrintedIsNotEmpty(table[1..], d);
    ParseFirstLine(table[0], Print(table[1..], d), d, maxRows, rows);
    assert Print(table, d) == Line(table[0], d) + ("\n" + Print(table[1..], d));
  }

  /** Printing and parsing gives back the table cut to the row limit, with `truncated` set exactly
      when rows were cut, for all cell texts, if and only if the text does not end in a row of one
      empty cell. */
  lemma RoundTrip(table: seq<seq<string>>, d: char, maxRows: nat)
    requires IsDelimiter(d) && HasCells(table) && maxRows > 0
    ensures (Parse(Print(table, d), d, maxRows) ==
             Table(if |table| > maxRows then table[..maxRows] else table, |table| > maxRows))
      <==> (|table| > maxRows || !EndsInvisibly(table))
    ensures Parse(Print(table, d), d, maxRows).truncated <==> |table| > maxRows
  {
    ParsePrinted(table, d, maxRows, []);
    assert [] + Visible(table, maxRows) == Visible(table, maxRows);
  }

  /** The failing family is inhabited: one row of one empty cell is lost. */
  lemma EmptyCellIsLost(maxRows: nat)
    requires maxRows > 0
    ensures Parse(Print([[""]], ','), ',', maxRows).rows == []
  {
    ParsePrinted([[""]], ',', maxRows, []);
  }

  /** Tables that do not end in a row of one empty cell are told apart by their text. */
  lemma PrintIsInjective(a: seq<seq<string>>, b: seq<seq<string>>, d: char)
    requires IsDelimiter(d) && HasCells(a) && HasCells(b)
    requires !EndsInvisibly(a) && !EndsInvisibly(b)
    requires Print(a, d) == Print(b, d)
    ensures a == b
  {
    var maxRows := |a| + |b| + 1;
    RoundTrip(a, d, maxRows);
    RoundTrip(b, d, maxRows);
  }

  // ---------- the usage export ----------

  const PREVIEW_ROWS: nat := 50
  const PAGE: nat := 200
  const EXPORT_LIMIT: nat := 10000

  const HEADER: seq<string> := [
    "created_at", "user_id", "user_email", "provider", "model", "input_tokens", "output_tokens", "cache_read_tokens",
    "cache_write_tokens", "cost_usd", "pricing_source", "usage_status", "price_version", "currency", "outcome",
    "failure_category", "duration_ms"]

  datatype Value = Missing | Shown(text: string)

  /** A usage record: one value for each column of the header. */
  type UsageRow = r: seq<Value> | |r| == |HEADER| witness seq(|HEADER|, _ => Missing)

  function Text(v: Value): string {
    match v
    case Missing => ""
    case Shown(text) => text
  }

  function Texts(row: UsageRow): seq<string> {
    seq(|row|, i requires 0 <= i < |row| => Text(row[i]))
  }

  function Min(a: nat, b: nat): nat { if a < b then a else b }

  /** One query of the usage store: at most 200 rows from `offset` on. */
  function Page(stored: seq<UsageRow>, offset: nat): seq<UsageRow> {
    if offset >= |stored| then [] else stored[offset..Min(|stored|, offset + PAGE)]
  }

  function ExportTable(rows: seq<UsageRow>): seq<seq<string>> {
    [HEADER] + seq(|rows|, i requires 0 <= i < |rows| => Texts(rows[i]))
  }

  /** The export handler: page through the store, cut at the limit, print. */
  method ExportUsage(stored: seq<UsageRow>) returns (csv: string)
    ensures csv == Print(ExportTable(stored[..Min(EXPORT_LIMIT, |stored|)]), ',')
  {
    var rows := Page(stored, 0);
    var exportLimit := Min(EXPORT_LIMIT, |stored|);
    var offset := PAGE;
    while offset < exportLimit
      invariant PAGE <= offset && rows == stored[..Min(|stored|, offset)]
    {
      rows := rows + Page(stored, offset);
      offset := offset + PAGE;
    }
    assert rows[..exportLimit] == stored[..exportLimit];
    csv := Print(ExportTable(rows[..exportLimit]), ',');
  }

  /** What the preview of an export should hold. */
  function Preview(stored: seq<UsageRow>): seq<seq<string>> {
    ExportTable(stored[..Min(|stored|, PREVIEW_ROWS - 1)])
  }

  lemma PreviewIsPrefix(stored: seq<UsageRow>)
    ensures var table := ExportTable(stored[..Min(EXPORT_LIMIT, |stored|)]);
      && HasCells(table) && !EndsInvisibly(table)
      && (|table| > PREVIEW_ROWS <==> |stored| >= PREVIEW_ROWS)
      && Preview(stored) == if |table| > PREVIEW_ROWS then table[..PREVIEW_ROWS] else table
  {
    var table := ExportTable(stored[..Min(EXPORT_LIMIT, |stored|)]);
    assert |table[|table| - 1]| == |HEADER|;
    var cut := if |table| > PREVIEW_ROWS then table[..PREVIEW_ROWS] else table;
    assert |cut| == |Preview(stored)|;
    forall i | 0 < i < |cut|
      ensures cut[i] == Preview(stored)[i]
    {
      assert cut[i] == Texts(stored[i - 1]) == Preview(stored)[i];
    }
  }

  /** The cells are those of the record, empty where it has none. */
  predicate Says(cells: seq<string>, row: UsageRow) {
    |cells| == |row| && forall j | 0 <= j < |row| ::
      (row[j].Missing? ==> cells[j] == "") && (row[j].Shown? ==> cells[j] == row[j].text)
  }

  /** The preview of an export shows the header and the first rows of the store, text for text, and
      says that it was cut exactly when the store holds more rows than fit below the header. */
  lemma PreviewShowsTheStore(stored: seq<UsageRow>)
    ensures var csv := Print(ExportTable(stored[..Min(EXPORT_LIMIT, |stored|)]), ',');
      var shown := Parse(csv, ',', PREVIEW_ROWS);
      && |shown.rows| == 1 + Min(|stored|, PREVIEW_ROWS - 1) && shown.rows[0] == HEADER
      && (forall i | 0 < i < |shown.rows| :: Says(shown.rows[i], stored[i - 1]))
      && (shown.truncated <==> |stored| >= PREVIEW_ROWS)
  {
    hide Parse, Print, HasCells, EndsInvisibly;
    PreviewIsPrefix(stored);
    RoundTrip(ExportTable(stored[..Min(EXPORT_LIMIT, |stored|)]), ',', PREVIEW_ROWS);
  }
}
