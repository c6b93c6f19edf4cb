/** Every text the parser can be given, read as rows of fields that are quoted in part, in whole or not at all. */
module CsvTexts {
  import opened Csv
  import opened Options

  // ---------- texts in pieces ----------

  /** Plain characters, and stretches between quotes in which quotes are doubled. */
  datatype Field = Nothing | Plain(c: char, more: Field) | Quoted(text: string, more: Field)

  datatype Fields = One(first: Field) | More(first: Field, rest: Fields)

  datatype Break = LF | CRLF | CR

  /** Rows that a break ends, and what comes after the last break; a quote opened there may never be closed. */
  datatype Doc = Row(fields: Fields, end: Break, rest: Doc) | Last(fields: Fields, open: Option<string>)

  function FieldText(f: Field): string {
    match f
    case Nothing => ""
    case Plain(c, more) => [c] + FieldText(more)
    case Quoted(text, more) => "\"" + Escape(text) + "\"" + FieldText(more)
  }

  function FieldsText(fields: Fields, d: char): string {
    match fields
    case One(f) => FieldText(f)
    case More(f, rest) => FieldText(f) + ([d] + FieldsText(rest, d))
  }

  function BreakText(b: Break): string {
    match b
    case LF => "\n"
    case CRLF => "\r\n"
    case CR => "\r"
  }

  function OpenText(open: Option<string>): string { if open.Some? then "\"" + Escape(open.value) else "" }

  function DocText(doc: Doc, d: char): string {
    match doc
    case Row(fields, b, rest) => FieldsText(fields, d) + (BreakText(b) + DocText(rest, d))
    case Last(fields, open) => FieldsText(fields, d) + OpenText(open)
  }

  // ---------- what the pieces say ----------

  function FieldValue(f: Field): string {
    match f
    case Nothing => ""
    case Plain(c, more) => [c] + FieldValue(more)
    case Quoted(text, more) => text + FieldValue(more)
  }

  /** The values of the fields; the last one goes on with `tail`. */
  function RowValue(fields: Fields, tail: string): seq<string> {
    match fields
    case One(f) => [FieldValue(f) + tail]
    case More(f, rest) => [FieldValue(f)] + RowValue(rest, tail)
  }

  /** The rows that a break ends. */
  function EndedRows(doc: Doc): seq<seq<string>> {
    match doc
    case Row(fields, _, rest) => [RowValue(fields, "")] + EndedRows(rest)
    case Last(_, _) => []
  }

  function LastRow(doc: Doc): seq<string> {
    match doc
    case Row(_, _, rest) => LastRow(rest)
    case Last(fields, open) => RowValue(fields, open.Or(""))
  }

  function LastText(doc: Doc, d: char): string {
    match doc
    case Row(_, _, rest) => LastText(rest, d)
    case Last(_, _) => DocText(doc, d)
  }

  /** The rows shown: those that a break ends, and what comes after the last break unless it is one empty field; all
      cut to the limit, with the flag set if and only if text is left beyond the row that reached it. */
  function Shown(doc: Doc, d: char, maxRows: nat): Table {
    var ended := EndedRows(doc);
    if |ended| >= maxRows then Table(ended[..maxRows], |ended| > maxRows || LastText(doc, d) != "")
    else Table(if LastRow(doc) == [""] then ended else ended + [LastRow(doc)], false)
  }

  // ---------- texts that read in one way ----------

  predicate IsPlain(c: char, d: char) { c != '"' && c != d && c != '\n' && c != '\r' }

  /** Two quoted stretches do not touch, for that would be a doubled quote. */
  predicate FieldOk(f: Field, d: char) {
    match f
    case Nothing => true
    case Plain(c, more) => IsPlain(c, d) && FieldOk(more, d)
    case Quoted(_, more) => !more.Quoted? && FieldOk(more, d)
  }

  predicate EndsQuoted(f: Field) {
    match f
    case Nothing => false
    case Plain(_, more) => EndsQuoted(more)
    case Quoted(_, more) => more.Nothing? || EndsQuoted(more)
  }

  predicate FieldsOk(fields: Fields, d: char) {
    FieldOk(fields.first, d) && (fields.More? ==> FieldsOk(fields.rest, d))
  }

  function LastField(fields: Fields): Field { if fields.One? then fields.first else LastField(fields.rest) }

  predicate NoLineFeedFirst(s: string) { s == "" || s[0] != '\n' }

  /** A carriage return that ends a row is not followed by a line feed. */
  predicate DocOk(doc: Doc, d: char) {
    match doc
    case Row(fields, b, rest) =>
      FieldsOk(fields, d) && DocOk(rest, d) && (b.CR? ==> NoLineFeedFirst(DocText(rest, d)))
    case Last(fields, open) => FieldsOk(fields, d) && (open.Some? ==> !EndsQuoted(LastField(fields)))
  }

  // ---------- parsing the pieces ----------

  lemma ParsePlain(
      c: char, rest: string, d: char, maxRows: nat, rows: seq<seq<string>>, row: seq<string>, cell: string)
    requires IsPlain(c, d)
    ensures ParseRest([c] + rest, d, maxRows, rows, row, cell, false) ==
      ParseRest(rest, d, maxRows, rows, row, cell + [c], false)
  {
    assert ([c] + rest)[1..] == rest;
  }

  lemma ParseQuoted(
      text: string, rest: string, d: char, maxRows: nat, rows: seq<seq<string>>, row: seq<string>, cell: string)
    requires NoQuoteFirst(rest)
    ensures ParseRest("\"" + Escape(text) + "\"" + rest, d, maxRows, rows, row, cell, false) ==
      ParseRest(rest, d, maxRows, rows, row, cell + text, false)
  {
    var s := "\"" + Escape(text) + "\"" + rest;
    assert s[0] == '"' && s[1..] == Escape(text) + "\"" + rest;
    ParseEscaped(text, rest, d, maxRows, rows, row, cell);
  }

  lemma {:induction false} ParseOpenQuote(
      text: string, d: char, maxRows: nat, rows: seq<seq<string>>, row: seq<string>, cell: string)
    ensures ParseRest(Escape(text), d, maxRows, rows, row, cell, true) ==
      ParseRest("", d, maxRows, rows, row, cell + text, true)
    decreases |text|
  {
    if text == "" {
      assert cell + text == cell;
    } else {
      var s, tail := Escape(text), Escape(text[1..]);
      ParseOpenQuote(text[1..], d, maxRows, rows, row, cell + [text[0]]);
      assert cell + [text[0]] + text[1..] == cell + text;
      if text[0] == '"' {
        assert s[0] == '"' && s[1] == '"' && s[2..] == tail;
        assert cell + "\"" == cell + [text[0]];
      } else {
        assert s[0] == text[0] && s[1..] == tail;
      }
    }
  }

  /** A quoted stretch is not followed by a quote. */
  lemma AfterQuoted(more: Field, rest: string, d: char)
    requires FieldOk(more, d) && !more.Quoted? && (more.Nothing? ==> NoQuoteFirst(rest))
    ensures NoQuoteFirst(FieldText(more) + rest)
  {
    match more
    case Nothing => assert FieldText(more) + rest == rest;
    case Plain(c, _) => assert (FieldText(more) + rest)[0] == c;
  }

  lemma {:induction false} ParseField(
      f: Field, rest: string, d: char, maxRows: nat, rows: seq<seq<string>>, row: seq<string>, cell: string)
    requires FieldOk(f, d) && (EndsQuoted(f) ==> NoQuoteFirst(rest))
    ensures ParseRest(FieldText(f) + rest, d, maxRows, rows, row, cell, false) ==
      ParseRest(rest, d, maxRows, rows, row, cell + FieldValue(f), false)
    decreases f
  {
    hide ParseRest, NoQuoteFirst;
    match f
    case Nothing => assert FieldText(f) + rest == rest && cell + FieldValue(f) == cell;
    case Plain(c, more) =>
      assert FieldText(f) + rest == [c] + (FieldText(more) + rest);
      ParsePlain(c, FieldText(more) + rest, d, maxRows, rows, row, cell);
      ParseField(more, rest, d, maxRows, rows, row, cell + [c]);
      assert cell + [c] + FieldValue(more) == cell + FieldValue(f);
    case Quoted(text, more) =>
      assert FieldText(f) + rest == "\"" + Escape(text) + "\"" + (FieldText(more) + rest);
      AfterQuoted(more, rest, d);
      ParseQuoted(text, FieldText(more) + rest, d, maxRows, rows, row, cell);
      ParseField(more, rest, d, maxRows, rows, row, cell + text);
      assert cell + text + FieldValue(more) == cell + FieldValue(f);
  }

  lemma ParseDelimiter(rest: string, d: char, maxRows: nat, rows: seq<seq<string>>, row: seq<string>, cell: string)
    requires IsDelimiter(d)
    ensures ParseRest([d] + rest, d, maxRows, rows, row, cell, false) ==
      ParseRest(rest, d, maxRows, rows, row + [cell], "", false)
  {
    assert ([d] + rest)[1..] == rest;
  }

  function FrontValues(fields: Fields): seq<string> {
    if fields.One? then [] else [FieldValue(fields.first)] + FrontValues(fields.rest)
  }

  lemma {:induction false} RowInParts(fields: Fields, tail: string)
    ensures RowValue(fields, tail) == FrontValues(fields) + [FieldValue(LastField(fields)) + tail]
    decreases fields
  {
    if fields.More? { RowInParts(fields.rest, tail); }
  }

  lemma {:induction false} ParseFields(
      fields: Fields, rest: string, d: char, maxRows: nat, rows: seq<seq<string>>, row: seq<string>)
    requires IsDelimiter(d) && FieldsOk(fields, d) && (EndsQuoted(LastField(fields)) ==> NoQuoteFirst(rest))
    ensures ParseRest(FieldsText(fields, d) + rest, d, maxRows, rows, row, "", false) ==
      ParseRest(rest, d, maxRows, rows, row + FrontValues(fields), FieldValue(LastField(fields)), false)
    decreases fields
  {
    hide ParseRest, FieldOk, EndsQuoted;
    var f := fields.first;
    assert "" + FieldValue(f) == FieldValue(f);
    match fields
    case One(_) =>
      ParseField(f, rest, d, maxRows, rows, row, "");
      assert row + FrontValues(fields) == row;
    case More(_, others) =>
      var tail := FieldsText(others, d) + rest;
      assert FieldsText(fields, d) + rest == FieldText(f) + ([d] + tail);
      ParseField(f, [d] + tail, d, maxRows, rows, row, "");
      ParseDelimiter(tail, d, maxRows, rows, row, FieldValue(f));
      ParseFields(others, rest, d, maxRows, rows, row + [FieldValue(f)]);
      assert row + [FieldValue(f)] + FrontValues(others) == row + FrontValues(fields);
  }

  /** A break ends the row, and the scan if that was the last row there is room for. */
  lemma ParseAnyBreak(
      b: Break, next: string, d: char, maxRows: nat, rows: seq<seq<string>>, row: seq<string>, cell: string)
    requires IsDelimiter(d) && (b.CR? ==> NoLineFeedFirst(next))
    ensures ParseRest(BreakText(b) + next, d, maxRows, rows, row, cell, false) ==
      if |rows| + 1 >= maxRows then Table(rows + [row + [cell]], next != "")
      else ParseRest(next, d, maxRows, rows + [row + [cell]], [], "", false)
  {
    var s := BreakText(b) + next;
    match b
    case CRLF => assert s[0] == '\r' && s[1] == '\n' && s[2..] == next;
    case LF => assert s[0] == '\n' && s[1..] == next;
    case CR => assert s[0] == '\r' && s[1..] == next && (|s| > 1 ==> s[1] == next[0]);
  }

  lemma BreakIsNoQuote(b: Break, next: string)
    ensures NoQuoteFirst(BreakText(b) + next)
  {
  }

  lemma ParseRow(fields: Fields, b: Break, next: string, d: char, maxRows: nat, rows: seq<seq<string>>)
    requires IsDelimiter(d) && FieldsOk(fields, d) && (b.CR? ==> NoLineFeedFirst(next))
    ensures ParseRest(FieldsText(fields, d) + (BreakText(b) + next), d, maxRows, rows, [], "", false) ==
      if |rows| + 1 >= maxRows then Table(rows + [RowValue(fields, "")], next != "")
      else ParseRest(next, d, maxRows, rows + [RowValue(fields, "")], [], "", false)
  {
    hide ParseRest, FieldsOk, FieldsText, BreakText, RowValue, NoQuoteFirst;
    var front, cell := [] + FrontValues(fields), FieldValue(LastField(fields));
    BreakIsNoQuote(b, next);
    ParseFields(fields, BreakText(b) + next, d, maxRows, rows, []);
    ParseAnyBreak(b, next, d, maxRows, rows, front, cell);
    RowInParts(fields, "");
    assert cell + "" == cell && front + [cell] == FrontValues(fields) + [cell];
  }

  lemma ParseOpening(text: string, d: char, maxRows: nat, rows: seq<seq<string>>, row: seq<string>, cell: string)
    ensures ParseRest("\"" + Escape(text), d, maxRows, rows, row, cell, false) ==
      ParseRest("", d, maxRows, rows, row, cell + text, true)
  {
    assert ("\"" + Escape(text))[1..] == Escape(text);
    ParseOpenQuote(text, d, maxRows, rows, row, cell);
  }

  lemma EndOfText(d: char, maxRows: nat, rows: seq<seq<string>>, row: seq<string>, cell: string, inQuotes: bool)
    ensures ParseRest("", d, maxRows, rows, row, cell, inQuotes) ==
      Table(if |rows| >= maxRows || row + [cell] == [""] then rows else rows + [row + [cell]], false)
  {
    assert (row + [cell])[|row|] == cell;
  }

  lemma ParseLast(fields: Fields, open: Option<string>, d: char, maxRows: nat, rows: seq<seq<string>>)
    requires IsDelimiter(d) && DocOk(Last(fields, open), d)
    ensures var row := RowValue(fields, open.Or(""));
      ParseRest(FieldsText(fields, d) + OpenText(open), d, maxRows, rows, [], "", false) ==
        Table(if |rows| >= maxRows || row == [""] then rows else rows + [row], false)
  {
    hide ParseRest, FieldsOk, FieldsText, EndsQuoted, RowValue;
    var front, cell := [] + FrontValues(fields), FieldValue(LastField(fields));
    ParseFields(fields, OpenText(open), d, maxRows, rows, []);
    if open.Some? {
      ParseOpening(open.value, d, maxRows, rows, front, cell);
    } else {
      assert cell + "" == cell;
    }
    EndOfText(d, maxRows, rows, front, cell + open.Or(""), open.Some?);
    RowInParts(fields, open.Or(""));
    assert front + [cell + open.Or("")] == FrontValues(fields) + [cell + open.Or("")];
  }

  lemma {:induction false} TextLeft(doc: Doc, d: char)
    ensures DocText(doc, d) != "" <==> EndedRows(doc) != [] || LastText(doc, d) != ""
  {
  }

  lemma {:induction false} ParseDoc(doc: Doc, d: char, maxRows: nat, rows: seq<seq<string>>)
    requires IsDelimiter(d) && DocOk(doc, d) && |rows| < maxRows
    ensures var shown := Shown(doc, d, maxRows - |rows|);
      ParseRest(DocText(doc, d), d, maxRows, rows, [], "", false) == Table(rows + shown.rows, shown.truncated)
    decreases doc, 1
  {
    match doc
    case Last(fields, open) => ParseLast(fields, open, d, maxRows, rows);
    case Row(_, _, _) => ParseRowOfDoc(doc, d, maxRows, rows);
  }

  lemma {:induction false} ParseRowOfDoc(doc: Doc, d: char, maxRows: nat, rows: seq<seq<string>>)
    requires IsDelimiter(d) && DocOk(doc, d) && |rows| < maxRows && doc.Row?
    ensures var shown := Shown(doc, d, maxRows - |rows|);
      ParseRest(DocText(doc, d), d, maxRows, rows, [], "", false) == Table(rows + shown.rows, shown.truncated)
    decreases doc, 0
  {
    hide ParseRest, FieldsOk, FieldsText, BreakText, RowValue, Shown;
    var row, rest := RowValue(doc.fields, ""), doc.rest;
    ParseRow(doc.fields, doc.end, DocText(rest, d), d, maxRows, rows);
    if |rows| + 1 < maxRows {
      ParseDoc(rest, d, maxRows, rows + [row]);
      ShownMore(doc.fields, doc.end, rest, d, maxRows - |rows|);
      var more := Shown(rest, d, maxRows - |rows| - 1).rows;
      assert rows + [row] + more == rows + ([row] + more);
    } else {
      ShownOne(doc.fields, doc.end, rest, d);
    }
  }

  lemma ShownMore(fields: Fields, b: Break, rest: Doc, d: char, room: nat)
    requires room > 1
    ensures var shown, more := Shown(Row(fields, b, rest), d, room), Shown(rest, d, room - 1);
      shown == Table([RowValue(fields, "")] + more.rows, more.truncated)
  {
    hide RowValue;
    var ended := EndedRows(Row(fields, b, rest));
    assert ended == [RowValue(fields, "")] + EndedRows(rest);
    if |ended| >= room {
      assert ended[..room] == [RowValue(fields, "")] + EndedRows(rest)[..room - 1];
    } else {
      assert ended + [LastRow(rest)] == [RowValue(fields, "")] + (EndedRows(rest) + [LastRow(rest)]);
    }
  }

  lemma ShownOne(fields: Fields, b: Break, rest: Doc, d: char)
    ensures Shown(Row(fields, b, rest), d, 1) == Table([RowValue(fields, "")], DocText(rest, d) != "")
  {
    hide RowValue;
    TextLeft(rest, d);
  }

  // ---------- every text is one of these ----------

  /** A text after an opening quote: it goes on to the closing quote, or to the end. */
  lemma {:induction false} ReadQuoted(text: string) returns (inside: string, rest: string, closed: bool)
    ensures NoQuoteFirst(rest) && |rest| <= |text|
    ensures text == if closed then Escape(inside) + "\"" + rest else Escape(inside)
    decreases |text|
  {
    if text == "" {
      inside, rest, closed := "", "", false;
    } else if text[0] != '"' {
      inside, rest, closed := ReadQuoted(text[1..]);
      EscapeMore(text[0], inside);
      inside := [text[0]] + inside;
    } else if |text| > 1 && text[1] == '"' {
      inside, rest, closed := ReadQuoted(text[2..]);
      EscapeMore('"', inside);
      inside := ['"'] + inside;
      assert text == "\"\"" + text[2..];
    } else {
      inside, rest, closed := "", text[1..], true;
    }
  }

  lemma EscapeMore(c: char, text: string)
    ensures Escape([c] + text) == (if c == '"' then "\"\"" else [c]) + Escape(text)
  {
    assert ([c] + text)[1..] == text;
  }

  function WithFields(doc: Doc, fields: Fields): Doc {
    match doc
    case Row(_, b, rest) => Row(fields, b, rest)
    case Last(_, open) => Last(fields, open)
  }

  /** One more field before the text. */
  lemma FieldBefore(doc: Doc, d: char)
    requires DocOk(doc, d)
    ensures var doc' := WithFields(doc, More(Nothing, doc.fields));
      DocOk(doc', d) && DocText(doc', d) == [d] + DocText(doc, d)
  {
    hide FieldsText, FieldsOk, LastField, EndsQuoted, Escape;
    var fields := More(Nothing, doc.fields);
    NothingBefore(doc.fields, d);
    match doc
    case Row(_, b, rest) => MoreBefore(d, FieldsText(doc.fields, d), BreakText(b) + DocText(rest, d));
    case Last(_, open) => MoreBefore(d, FieldsText(doc.fields, d), OpenText(open));
  }

  lemma NothingBefore(fields: Fields, d: char)
    ensures var fields' := More(Nothing, fields);
      && FieldsText(fields', d) == [d] + FieldsText(fields, d) && LastField(fields') == LastField(fields)
      && (FieldsOk(fields', d) <==> FieldsOk(fields, d))
  {
  }

  lemma MoreBefore(c: char, a: string, b: string)
    ensures ([c] + a) + b == [c] + (a + b)
  {
  }

  /** The same field with one more piece before it. */
  function WithFirst(fields: Fields, f: Field): Fields {
    if fields.One? then One(f) else More(f, fields.rest)
  }

  lemma PlainBefore(doc: Doc, c: char, d: char)
    requires DocOk(doc, d) && IsPlain(c, d)
    ensures var doc' := WithFields(doc, WithFirst(doc.fields, Plain(c, doc.fields.first)));
      DocOk(doc', d) && DocText(doc', d) == [c] + DocText(doc, d)
  {
  }

  /** A text that begins with a quoted stretch, or with a quote that is never closed, begins with a quote. */
  lemma QuoteShows(doc: Doc, d: char)
    ensures doc.fields.first.Quoted? ==> !NoQuoteFirst(DocText(doc, d))
    ensures doc.Last? && doc.fields == One(Nothing) && doc.open.Some? ==> !NoQuoteFirst(DocText(doc, d))
  {
  }

  lemma QuotedFirst(fields: Fields, text: string, d: char)
    requires FieldsOk(fields, d) && !fields.first.Quoted?
    ensures var fields' := WithFirst(fields, Quoted(text, fields.first));
      && FieldsOk(fields', d) && FieldsText(fields', d) == "\"" + Escape(text) + "\"" + FieldsText(fields, d)
      && (EndsQuoted(LastField(fields')) ==> EndsQuoted(LastField(fields)) || fields == One(Nothing))
  {
    hide Escape;
  }

  lemma QuotedBefore(doc: Doc, text: string, d: char)
    requires DocOk(doc, d) && NoQuoteFirst(DocText(doc, d))
    ensures var doc' := WithFields(doc, WithFirst(doc.fields, Quoted(text, doc.fields.first)));
      DocOk(doc', d) && DocText(doc', d) == "\"" + Escape(text) + "\"" + DocText(doc, d)
  {
    hide NoQuoteFirst, FieldsText, FieldsOk, EndsQuoted, WithFirst, Escape;
    QuoteShows(doc, d);
    QuotedFirst(doc.fields, text, d);
  }

  /** Every text can be read in this way. */
  lemma {:induction false} EveryTextIsADoc(text: string, d: char) returns (doc: Doc)
    requires IsDelimiter(d)
    ensures DocOk(doc, d) && DocText(doc, d) == text
    decreases |text|, 1
  {
    hide DocOk, DocText;
    if text == "" {
      doc := EndedDoc(None, d);
    } else if text[0] == d {
      doc := EveryTextIsADoc(text[1..], d);
      FieldBefore(doc, d);
      doc := WithFields(doc, More(Nothing, doc.fields));
    } else if text[0] == '\n' || text[0] == '\r' {
      doc := BreakBefore(text, d);
    } else if text[0] == '"' {
      var inside, rest, closed := ReadQuoted(text[1..]);
      if closed {
        doc := EveryTextIsADoc(rest, d);
        QuotedBefore(doc, inside, d);
        doc := WithFields(doc, WithFirst(doc.fields, Quoted(inside, doc.fields.first)));
        assert text == "\"" + Escape(inside) + "\"" + rest;
      } else {
        doc := EndedDoc(Some(inside), d);
      }
    } else {
      doc := EveryTextIsADoc(text[1..], d);
      PlainBefore(doc, text[0], d);
      doc := WithFields(doc, WithFirst(doc.fields, Plain(text[0], doc.fields.first)));
    }
  }

  lemma EndedDoc(open: Option<string>, d: char) returns (doc: Doc)
    ensures DocOk(doc, d) && DocText(doc, d) == OpenText(open)
  {
    doc := Last(One(Nothing), open);
  }

  lemma {:induction false} BreakBefore(text: string, d: char) returns (doc: Doc)
    requires IsDelimiter(d) && text != "" && (text[0] == '\n' || text[0] == '\r')
    ensures DocOk(doc, d) && DocText(doc, d) == text
    decreases |text|, 0
  {
    var b := if text[0] == '\n' then LF else if |text| > 1 && text[1] == '\n' then CRLF else CR;
    var next := text[|BreakText(b)|..];
    var more := EveryTextIsADoc(next, d);
    doc := Row(One(Nothing), b, more);
    assert text == BreakText(b) + next;
  }

  /** However its fields are quoted and its rows are ended, a text is parsed to what its pieces say. */
  lemma DocIsParsed(doc: Doc, d: char, maxRows: nat)
    requires IsDelimiter(d) && maxRows > 0 && DocOk(doc, d)
    ensures Parse(DocText(doc, d), d, maxRows) == Shown(doc, d, maxRows)
  {
    hide DocOk, DocText, Shown, ParseRest;
    ParseDoc(doc, d, maxRows, []);
    var shown := Shown(doc, d, maxRows);
    assert [] + shown.rows == shown.rows;
  }

  /** With no room for a row, a row that a break ends is shown all the same. */
  lemma NoRoomShowsOneRow(doc: Doc, d: char)
    requires IsDelimiter(d) && DocOk(doc, d)
    ensures Parse(DocText(doc, d), d, 0) == if doc.Row? then Shown(doc, d, 1) else Table([], false)
  {
    hide Shown, ParseRest, FieldsOk, FieldsText, BreakText, RowValue, EndsQuoted;
    match doc
    case Last(fields, open) => ParseLast(fields, open, d, 0, []);
    case Row(fields, b, rest) =>
      ParseRow(fields, b, DocText(rest, d), d, 0, []);
      ShownOne(fields, b, rest, d);
  }

  /** What the parser makes of every text there is. */
  lemma EveryTextIsParsed(text: string, d: char, maxRows: nat) returns (doc: Doc)
    requires IsDelimiter(d)
    ensures DocOk(doc, d) && DocText(doc, d) == text
    ensures Parse(text, d, maxRows) ==
      if maxRows > 0 then Shown(doc, d, maxRows) else if doc.Row? then Shown(doc, d, 1) else Table([], false)
  {
    hide DocOk, DocText, Shown, Parse;
    doc := EveryTextIsADoc(text, d);
    if maxRows > 0 { DocIsParsed(doc, d, maxRows); } else { NoRoomShowsOneRow(doc, d); }
  }

  // ---------- tables in any style ----------

  /** A field as its writer chose to print it. */
  datatype Cell = Cell(text: string, quoted: bool)

  predicate CellOk(cell: Cell, d: char) { !cell.quoted ==> forall c | c in cell.text :: IsPlain(c, d) }

  function CellField(cell: Cell): Field {
    if cell.quoted then Quoted(cell.text, Nothing) else PlainField(cell.text)
  }

  function PlainField(text: string): Field {
    if text == "" then Nothing else Plain(text[0], PlainField(text[1..]))
  }

  function RowFields(row: seq<Cell>): Fields
    requires row != []
  {
    if |row| == 1 then One(CellField(row[0])) else More(CellField(row[0]), RowFields(row[1..]))
  }

  function Texts(row: seq<Cell>): seq<string> { seq(|row|, i requires 0 <= i < |row| => row[i].text) }

  function TableTexts(table: seq<seq<Cell>>): seq<seq<string>> {
    seq(|table|, i requires 0 <= i < |table| => Texts(table[i]))
  }

  /** The table with `breaks` between its rows. */
  function Styled(table: seq<seq<Cell>>, breaks: seq<Break>): Doc
    requires table != [] && |breaks| == |table| - 1 && forall i | 0 <= i < |table| :: table[i] != []
    decreases |table|
  {
    if |table| == 1 then Last(RowFields(table[0]), None)
    else Row(RowFields(table[0]), breaks[0], Styled(table[1..], breaks[1..]))
  }

  /** Rows of cells; a carriage return is not followed by a row of nothing that a line feed ends. */
  predicate StyleOk(table: seq<seq<Cell>>, breaks: seq<Break>, d: char) {
    && table != [] && |breaks| == |table| - 1
    && (forall i | 0 <= i < |table| :: table[i] != [] && forall j | 0 <= j < |table[i]| :: CellOk(table[i][j], d))
    && (forall i | 0 <= i < |breaks| - 1 && breaks[i].CR? && breaks[i + 1].LF? :: table[i + 1] != [Cell("", false)])
  }

  lemma {:induction false} PlainFieldOk(text: string, d: char)
    requires forall c | c in text :: IsPlain(c, d)
    ensures FieldOk(PlainField(text), d) && FieldValue(PlainField(text)) == text
    ensures FieldText(PlainField(text)) == text && !EndsQuoted(PlainField(text))
    decreases |text|
  {
    if text != "" { PlainFieldOk(text[1..], d); }
  }

  lemma CellFieldOk(cell: Cell, d: char)
    requires CellOk(cell, d)
    ensures FieldOk(CellField(cell), d) && FieldValue(CellField(cell)) == cell.text
    ensures FieldText(CellField(cell)) == "" <==> cell == Cell("", false)
    ensures FieldText(CellField(cell)) != "" && IsDelimiter(d) ==> FieldText(CellField(cell))[0] != '\n'
  {
    if cell.quoted {
      assert cell.text + "" == cell.text;
    } else {
      PlainFieldOk(cell.text, d);
      assert cell.text != "" ==> cell.text[0] in cell.text;
    }
  }

  lemma {:induction false} RowFieldsOk(row: seq<Cell>, d: char)
    requires IsDelimiter(d) && row != [] && forall j | 0 <= j < |row| :: CellOk(row[j], d)
    ensures FieldsOk(RowFields(row), d) && RowValue(RowFields(row), "") == Texts(row)
    ensures NoLineFeedFirst(FieldsText(RowFields(row), d))
    ensures FieldsText(RowFields(row), d) == "" <==> row == [Cell("", false)]
    decreases |row|
  {
    hide FieldOk, FieldValue, FieldText, CellField;
    CellFieldOk(row[0], d);
    assert row[0].text + "" == row[0].text;
    if |row| == 1 {
      assert row == [row[0]] && Texts(row) == [row[0].text];
    } else {
      RowFieldsOk(row[1..], d);
      assert Texts(row) == [row[0].text] + Texts(row[1..]);
    }
  }

  lemma RestStyleOk(table: seq<seq<Cell>>, breaks: seq<Break>, d: char)
    requires StyleOk(table, breaks, d) && |table| > 1
    ensures StyleOk(table[1..], breaks[1..], d)
  {
    hide CellOk;
    var rows, more := table[1..], breaks[1..];
    forall i | 0 <= i < |more| - 1 && more[i].CR? && more[i + 1].LF?
      ensures rows[i + 1] != [Cell("", false)]
    {
      assert breaks[i + 1].CR? && breaks[i + 2].LF?;
    }
  }

  /** The text begins with a line feed only if its first row is nothing and a line feed ends it. */
  lemma StyledBegins(table: seq<seq<Cell>>, breaks: seq<Break>, d: char)
    requires IsDelimiter(d) && StyleOk(table, breaks, d)
    ensures !NoLineFeedFirst(DocText(Styled(table, breaks), d)) ==>
      table[0] == [Cell("", false)] && |table| > 1 && breaks[0].LF?
  {
    hide CellOk, FieldsText, RowFields;
    RowFieldsOk(table[0], d);
  }

  lemma {:induction false} StyledOk(table: seq<seq<Cell>>, breaks: seq<Break>, d: char)
    requires IsDelimiter(d) && StyleOk(table, breaks, d)
    ensures var doc, n := Styled(table, breaks), |table| - 1;
      && DocOk(doc, d) && EndedRows(doc) == TableTexts(table[..n]) && LastRow(doc) == Texts(table[n])
      && (LastText(doc, d) == "" <==> table[n] == [Cell("", false)])
    decreases |table|
  {
    hide FieldsText, FieldsOk, RowFields, RowValue;
    RowFieldsOk(table[0], d);
    if |table| == 1 {
      assert TableTexts(table[..0]) == [];
    } else {
      RestStyleOk(table, breaks, d);
      StyledOk(table[1..], breaks[1..], d);
      StyledBegins(table[1..], breaks[1..], d);
      assert TableTexts(table[..|table| - 1]) == [Texts(table[0])] + TableTexts(table[1..][..|table| - 2]);
    }
  }

  /** The last row leaves no trace: it is one empty field, and no room or no text is left for it. */
  predicate Lost(table: seq<seq<Cell>>, maxRows: nat)
    requires table != []
  {
    var last := table[|table| - 1];
    Texts(last) == [""] && (|table| <= maxRows || (|table| == maxRows + 1 && !last[0].quoted))
  }

  /** A table printed in any style, with or without quotes and with any mix of breaks, is parsed back, cut to the
      limit and with the flag set exactly when it was cut, if and only if its last row leaves a trace. */
  lemma AnyStyleRoundTrip(table: seq<seq<Cell>>, breaks: seq<Break>, d: char, maxRows: nat)
    requires IsDelimiter(d) && maxRows > 0 && StyleOk(table, breaks, d)
    ensures var texts := TableTexts(table);
      Parse(DocText(Styled(table, breaks), d), d, maxRows) ==
        Table(if |texts| > maxRows then texts[..maxRows] else texts, |texts| > maxRows)
      <==> !Lost(table, maxRows)
  {
    hide DocText, LastText, Parse, Styled, CellOk, LastRow, EndedRows;
    StyledOk(table, breaks, d);
    var doc, texts, n := Styled(table, breaks), TableTexts(table), |table| - 1;
    DocIsParsed(doc, d, maxRows);
    assert texts == TableTexts(table[..n]) + [Texts(table[n])];
    if |table| > maxRows { assert texts[..maxRows] == TableTexts(table[..n])[..maxRows]; }
    EmptyLast(table[n]);
  }

  predicate AllQuoted(row: seq<Cell>) { forall j | 0 <= j < |row| :: row[j].quoted }

  predicate OfAnExport(table: seq<seq<Cell>>, breaks: seq<Break>) {
    (forall i | 0 <= i < |table| :: AllQuoted(table[i])) && (forall i | 0 <= i < |breaks| :: breaks[i].LF?)
  }

  /** The export is the style that quotes every cell and ends every row but the last with a line feed. */
  lemma {:induction false} PrintQuotesEverything(table: seq<seq<Cell>>, breaks: seq<Break>, d: char)
    requires StyleOk(table, breaks, d) && OfAnExport(table, breaks)
    ensures Print(TableTexts(table), d) == DocText(Styled(table, breaks), d)
    decreases |table|
  {
    hide Line, FieldsText, Texts, Styled, Print, DocText, CellOk;
    PrintMore(TableTexts(table), d);
    StyledMore(table, breaks, d);
    LineQuotesEverything(table[0], d);
    if |table| > 1 {
      RestStyleOk(table, breaks, d);
      PrintQuotesEverything(table[1..], breaks[1..], d);
      assert TableTexts(table)[1..] == TableTexts(table[1..]);
    }
  }

  lemma PrintMore(rows: seq<seq<string>>, d: char)
    requires rows != []
    ensures Print(rows, d) == if |rows| == 1 then Line(rows[0], d) else Line(rows[0], d) + ("\n" + Print(rows[1..], d))
  {
    hide Line;
  }

  lemma StyledMore(table: seq<seq<Cell>>, breaks: seq<Break>, d: char)
    requires StyleOk(table, breaks, d)
    ensures var first := FieldsText(RowFields(table[0]), d);
      DocText(Styled(table, breaks), d) ==
        if |table| == 1 then first
        else first + (BreakText(breaks[0]) + DocText(Styled(table[1..], breaks[1..]), d))
  {
    hide FieldsText, RowFields;
  }

  lemma {:induction false} LineQuotesEverything(row: seq<Cell>, d: char)
    requires row != [] && AllQuoted(row)
    ensures Line(Texts(row), d) == FieldsText(RowFields(row), d)
    decreases |row|
  {
    assert FieldText(CellField(row[0])) == "\"" + Escape(row[0].text) + "\"";
    if |row| > 1 {
      LineQuotesEverything(row[1..], d);
      assert Texts(row)[1..] == Texts(row[1..]);
    }
  }

  lemma EmptyLast(row: seq<Cell>)
    ensures Texts(row) == [""] ==> (row == [Cell("", false)] <==> !row[0].quoted)
    ensures row == [Cell("", false)] ==> Texts(row) == [""]
  {
    if Texts(row) == [""] {
      assert |row| == 1 && row[0].text == Texts(row)[0];
    }
  }
}
