/**
  The CSV printer of packages/cli/src/formats.ts, and a reader of section 2 of RFC 4180 that inverts it.
 */
module Csv {
  import opened Basics
  import opened Text
  import D = Decimal

  // ---- Printing ----

  datatype Cell = Text(text: string) | Number(n: nat) | Missing

  /** `String(value)`, and nothing for null and undefined. */
  function CellText(cell: Cell): string
  {
    match cell
    case Text(text) => text
    case Number(n) => D.Decimal(n)
    case Missing => ""
  }

  predicate Special(c: char) { c == '"' || c == ',' || c == '\r' || c == '\n' }

  predicate IsPlain(text: string) { forall i :: 0 <= i < |text| ==> !Special(text[i]) }

  function Doubled(text: string): string
  {
    if text == "" then "" else (if text[0] == '"' then "\"\"" else [text[0]]) + Doubled(text[1..])
  }

  /** `csvField` of a value that is there, as text. */
  function FieldOf(text: string): string
  {
    if IsPlain(text) then text else "\"" + Doubled(text) + "\""
  }

  function CsvField(cell: Cell): string { FieldOf(CellText(cell)) }

  function CellTexts(cells: seq<Cell>): seq<string>
  {
    if cells == [] then [] else [CellText(cells[0])] + CellTexts(cells[1..])
  }

  function Fields(cells: seq<Cell>): seq<string>
  {
    if cells == [] then [] else [CsvField(cells[0])] + Fields(cells[1..])
  }

  function CsvRow(cells: seq<Cell>): string { Join(Fields(cells), ",") }

  datatype RowKind = Evidence | Claim | Theme | Trend | Attested | Comparison
  {
    function Name(): string
    {
      match this
      case Evidence => "evidence"
      case Claim => "claim"
      case Theme => "theme"
      case Trend => "trend"
      case Attested => "attested"
      case Comparison => "comparison"
    }
  }

  datatype FlatRow = FlatRow(
    kind: RowKind, category: string, subject: string, term: string, verdict: string, records: nat, channels: nat,
    receiptId: string, source: string, channel: string, tier: string, url: string, createdUtc: nat, excerpt: string,
    corpusRecords: nat)

  const CSV_HEADER: seq<string> := [
    "kind", "category", "subject", "term", "verdict", "records", "channels",
    "receipt_id", "source", "channel", "tier", "url", "created_utc", "excerpt",
    "corpus_records"]

  function Cells(r: FlatRow): seq<Cell>
  {
    [Text(r.kind.Name()), Text(r.category), Text(r.subject), Text(r.term), Text(r.verdict), Number(r.records),
     Number(r.channels), Text(r.receiptId), Text(r.source), Text(r.channel), Text(r.tier), Text(r.url),
     Number(r.createdUtc), Text(r.excerpt), Number(r.corpusRecords)]
  }

  function RowLines(rows: seq<FlatRow>): seq<string>
  {
    if rows == [] then [] else [CsvRow(Cells(rows[0]))] + RowLines(rows[1..])
  }

  function CsvText(rows: seq<FlatRow>): string { Join([Join(CSV_HEADER, ",")] + RowLines(rows), "\r\n") }

  lemma NextLine(lines: seq<string>, rows: seq<FlatRow>, i: nat)
    requires i < |rows|
    ensures lines + RowLines(rows[i..]) == lines + [CsvRow(Cells(rows[i]))] + RowLines(rows[i + 1..])
  {
    assert rows[i..][0] == rows[i] && rows[i..][1..] == rows[i + 1..];
    Associative(lines, [CsvRow(Cells(rows[i]))], RowLines(rows[i + 1..]));
  }

  /** `renderCsv`, given the flat rows. */
  method RenderCsv(rows: seq<FlatRow>) returns (csv: string)
    ensures csv == CsvText(rows)
  {
    var lines := [Join(CSV_HEADER, ",")];
    for i := 0 to |rows|
      invariant lines + RowLines(rows[i..]) == [Join(CSV_HEADER, ",")] + RowLines(rows)
    {
      NextLine(lines, rows, i);
      lines := lines + [CsvRow(Cells(rows[i]))];
    }
    assert lines + [] == lines;
    csv := Join(lines, "\r\n");
  }

  // ---- Reading ----

  /** Where a reader of RFC 4180, section 2, stands: at a field, in one, past its closing quote, or past a CR. */
  datatype Mode = AtField | InPlain | InQuoted | PastQuote | PastReturn

  datatype Reader =
    | Reader(rows: seq<seq<string>>, row: seq<string>, field: string, mode: Mode)
    | Malformed

  const START: Reader := Reader([], [], "", AtField)

  /** Rules 2 to 7, one character at a time. */
  function Read(r: Reader, c: char): Reader
  {
    if r.Malformed? then r
    else
      match r.mode
      case InQuoted =>
        if c == '"' then r.(mode := PastQuote) else r.(field := r.field + [c])
      case PastReturn =>
        if c == '\n' then Reader(r.rows + [r.row + [r.field]], [], "", AtField) else Malformed
      case PastQuote =>
        if c == '"' then r.(field := r.field + [c], mode := InQuoted) else Ended(r, c)
      case AtField =>
        if c == '"' then r.(mode := InQuoted)
        else if Special(c) then Ended(r, c)
        else r.(field := r.field + [c], mode := InPlain)
      case InPlain =>
        if Special(c) then Ended(r, c) else r.(field := r.field + [c])
  }

  /** A comma or a CR ends the field; nothing else may follow it. */
  function Ended(r: Reader, c: char): Reader
    requires r.Reader?
  {
    if c == ',' then Reader(r.rows, r.row + [r.field], "", AtField)
    else if c == '\r' then r.(mode := PastReturn)
    else Malformed
  }

  function Feed(r: Reader, s: string): Reader
    decreases |s|
  {
    if s == "" then r else Feed(Read(r, s[0]), s[1..])
  }

  /** The end of the text ends the last record, unless a line break already did. */
  function Finish(r: Reader): Option<seq<seq<string>>>
  {
    if r.Malformed? || r.mode.InQuoted? || r.mode.PastReturn? then None
    else if r.mode.AtField? && r.row == [] && r.rows != [] then Some(r.rows)
    else Some(r.rows + [r.row + [r.field]])
  }

  function ReadCsv(text: string): Option<seq<seq<string>>> { Finish(Feed(START, text)) }

  // ---- The reader inverts the printer ----

  lemma {:induction false} FeedAppend(r: Reader, a: string, b: string)
    ensures Feed(r, a + b) == Feed(Feed(r, a), b)
    decreases |a|
  {
    if a == "" {
      assert a + b == b;
    } else {
      assert (a + b)[1..] == a[1..] + b;
      FeedAppend(Read(r, a[0]), a[1..], b);
    }
  }

  lemma {:induction false} FeedPlain(r: Reader, text: string)
    requires r.Reader? && (r.mode.AtField? || r.mode.InPlain?) && IsPlain(text)
    ensures Feed(r, text) == if text == "" then r else r.(field := r.field + text, mode := InPlain)
    decreases |text|
  {
    if text != "" {
      FeedPlain(r.(field := r.field + [text[0]], mode := InPlain), text[1..]);
      assert r.field + [text[0]] + text[1..] == r.field + text;
    }
  }

  lemma FeedQuote(r: Reader, rest: string)
    requires r.Reader? && r.mode.InQuoted?
    ensures Feed(r, "\"\"" + rest) == Feed(r.(field := r.field + "\""), rest)
  {
    var s := "\"\"" + rest;
    assert s[1..][1..] == rest;
  }

  lemma FeedOne(r: Reader, c: char, rest: string)
    ensures Feed(r, [c] + rest) == Feed(Read(r, c), rest)
  {
    assert ([c] + rest)[1..] == rest;
  }

  lemma {:induction false} FeedDoubled(r: Reader, text: string)
    requires r.Reader? && r.mode.InQuoted?
    ensures Feed(r, Doubled(text)) == r.(field := r.field + text)
    decreases |text|
  {
    if text == "" {
      assert r.field + text == r.field;
    } else {
      var c, rest := text[0], text[1..];
      if c == '"' {
        FeedQuote(r, Doubled(rest));
      } else {
        FeedOne(r, c, Doubled(rest));
      }
      FeedDoubled(r.(field := r.field + [c]), rest);
      assert r.field + [c] + rest == r.field + text;
    }
  }

  /** A reader that has just been fed a field holds its text and would end it at a comma, a CR or the end. */
  predicate Holds(r: Reader, rows: seq<seq<string>>, row: seq<string>, text: string)
  {
    && r.Reader? && r.rows == rows && r.row == row && r.field == text
    && (r.mode.AtField? || r.mode.InPlain? || r.mode.PastQuote?)
  }

  lemma FeedField(rows: seq<seq<string>>, row: seq<string>, text: string)
    ensures Holds(Feed(Reader(rows, row, "", AtField), FieldOf(text)), rows, row, text)
  {
    var r := Reader(rows, row, "", AtField);
    if IsPlain(text) {
      FeedPlain(r, text);
    } else {
      assert FieldOf(text) == ['"'] + (Doubled(text) + "\"");
      FeedOne(r, '"', Doubled(text) + "\"");
      FeedAppend(r.(mode := InQuoted), Doubled(text), "\"");
      FeedDoubled(r.(mode := InQuoted), text);
      FeedOne(r.(mode := InQuoted, field := text), '"', "");
    }
  }

  lemma {:induction false} DoubledIsNoShorter(text: string)
    ensures |Doubled(text)| >= |text|
  {
    if text != "" {
      DoubledIsNoShorter(text[1..]);
    }
  }

  /** A field is printed as it is exactly when it holds no quote, no comma and no line break. */
  lemma PrintedAsIsExactly(text: string)
    ensures FieldOf(text) == text
       <==> forall i :: 0 <= i < |text| ==> text[i] != '"' && text[i] != ',' && text[i] != '\r' && text[i] != '\n'
  {
    DoubledIsNoShorter(text);
    assert !IsPlain(text) ==> |FieldOf(text)| > |text|;
  }

  function FieldsOf(texts: seq<string>): seq<string>
  {
    if texts == [] then [] else [FieldOf(texts[0])] + FieldsOf(texts[1..])
  }

  /** A printed record, up to its last field. */
  lemma {:induction false} FeedRow(rows: seq<seq<string>>, row: seq<string>, texts: seq<string>)
    requires texts != []
    ensures Holds(Feed(Reader(rows, row, "", AtField), Join(FieldsOf(texts), ",")),
                  rows, row + texts[..|texts| - 1], texts[|texts| - 1])
    decreases |texts|
  {
    var r := Reader(rows, row, "", AtField);
    FeedField(rows, row, texts[0]);
    if |texts| == 1 {
      assert row + texts[..0] == row;
      assert Join(FieldsOf(texts), ",") == FieldOf(texts[0]);
    } else {
      var first, rest := FieldOf(texts[0]), Join(FieldsOf(texts[1..]), ",");
      assert Join(FieldsOf(texts), ",") == first + "," + rest;
      Associative(first, ",", rest);
      FeedAppend(r, first, "," + rest);
      FeedOne(Feed(r, first), ',', rest);
      FeedRow(rows, row + [texts[0]], texts[1..]);
      assert row + [texts[0]] + texts[1..][..|texts| - 2] == row + texts[..|texts| - 1];
    }
  }

  lemma FeedBreak(r: Reader, rows: seq<seq<string>>, row: seq<string>, text: string, rest: string)
    requires Holds(r, rows, row, text)
    ensures Feed(r, "\r\n" + rest) == Feed(Reader(rows + [row + [text]], [], "", AtField), rest)
  {
    var s := "\r\n" + rest;
    assert s[1..][1..] == rest;
  }

  function Records(table: seq<seq<string>>): seq<string>
  {
    if table == [] then [] else [Line(table[0])] + Records(table[1..])
  }

  /** No record is empty or a single field, which a line of its own could not tell from none. */
  predicate IsTable(table: seq<seq<string>>) { forall row :: row in table ==> |row| >= 2 }

  function Line(row: seq<string>): string { Join(FieldsOf(row), ",") }

  /** A record and its line break. */
  lemma FeedRecord(rows: seq<seq<string>>, row: seq<string>, rest: string)
    requires row != []
    ensures Feed(Reader(rows, [], "", AtField), Line(row) + ("\r\n" + rest))
         == Feed(Reader(rows + [row], [], "", AtField), rest)
  {
    var r := Reader(rows, [], "", AtField);
    var front, last := row[..|row| - 1], row[|row| - 1];
    FeedRow(rows, [], row);
    assert [] + front == front && front + [last] == row;
    FeedAppend(r, Line(row), "\r\n" + rest);
    FeedBreak(Feed(r, Line(row)), rows, front, last, rest);
  }

  /** The last record ends with the text. */
  lemma FeedLastRecord(rows: seq<seq<string>>, row: seq<string>)
    requires |row| >= 2
    ensures Finish(Feed(Reader(rows, [], "", AtField), Line(row))) == Some(rows + [row])
  {
    FeedRow(rows, [], row);
    assert [] + row[..|row| - 1] + [row[|row| - 1]] == row;
  }

  lemma {:induction false} FeedTable(rows: seq<seq<string>>, table: seq<seq<string>>)
    requires table != [] && IsTable(table)
    ensures Finish(Feed(Reader(rows, [], "", AtField), Join(Records(table), "\r\n"))) == Some(rows + table)
    decreases |table|
  {
    var row := table[0];
    assert row in table;
    if |table| == 1 {
      FeedLastRecord(rows, row);
      assert Records(table) == [Line(row)] && [row] == table;
    } else {
      var rest := Join(Records(table[1..]), "\r\n");
      assert Join(Records(table), "\r\n") == Line(row) + "\r\n" + rest;
      Associative(Line(row), "\r\n", rest);
      FeedRecord(rows, row, rest);
      FeedTable(rows + [row], table[1..]);
      Associative(rows, [row], table[1..]);
      assert [row] + table[1..] == table;
    }
  }

  function Table(rows: seq<FlatRow>): seq<seq<string>>
  {
    if rows == [] then [] else [CellTexts(Cells(rows[0]))] + Table(rows[1..])
  }

  lemma {:induction false} FieldsAreFieldsOfTexts(cells: seq<Cell>)
    ensures Fields(cells) == FieldsOf(CellTexts(cells)) && |CellTexts(cells)| == |cells|
  {
    if cells != [] {
      FieldsAreFieldsOfTexts(cells[1..]);
    }
  }

  lemma {:induction false} LinesAreRecords(rows: seq<FlatRow>)
    ensures RowLines(rows) == Records(Table(rows)) && IsTable(Table(rows))
  {
    if rows != [] {
      FieldsAreFieldsOfTexts(Cells(rows[0]));
      LinesAreRecords(rows[1..]);
    }
  }

  lemma {:induction false} PlainFields(texts: seq<string>)
    requires forall t :: t in texts ==> IsPlain(t)
    ensures FieldsOf(texts) == texts
  {
    if texts != [] {
      PlainFields(texts[1..]);
    }
  }

  predicate AllPlain(texts: seq<string>) { forall t :: t in texts ==> IsPlain(t) }

  lemma FirstNamesPlain()
    ensures AllPlain(["kind", "category", "subject", "term", "verdict", "records", "channels"])
  {
  }

  lemma LastNamesPlain()
    ensures AllPlain(["receipt_id", "source", "channel", "tier", "url", "created_utc", "excerpt", "corpus_records"])
  {
  }

  lemma HeaderIsPlain()
    ensures AllPlain(CSV_HEADER)
  {
    FirstNamesPlain();
    LastNamesPlain();
    assert CSV_HEADER == ["kind", "category", "subject", "term", "verdict", "records", "channels"]
        + ["receipt_id", "source", "channel", "tier", "url", "created_utc", "excerpt", "corpus_records"];
  }

  lemma RoundTripUnder(header: seq<string>, rows: seq<FlatRow>)
    requires |header| >= 2 && AllPlain(header)
    ensures ReadCsv(Join([Join(header, ",")] + RowLines(rows), "\r\n")) == Some([header] + Table(rows))
  {
    var table := [header] + Table(rows);
    PlainFields(header);
    LinesAreRecords(rows);
    assert table[1..] == Table(rows);
    assert Records(table) == [Join(header, ",")] + RowLines(rows);
    FeedTable([], table);
    assert [] + table == table;
  }

  /** Reading the printed rows gives back the header and every cell's text, whatever the cells contain. */
  lemma RoundTrip(rows: seq<FlatRow>)
    ensures ReadCsv(CsvText(rows)) == Some([CSV_HEADER] + Table(rows))
  {
    HeaderIsPlain();
    RoundTripUnder(CSV_HEADER, rows);
  }

  lemma KindByName(a: RowKind, b: RowKind)
    requires a.Name() == b.Name()
    ensures a == b
  {
    assert a.Name()[..2] == b.Name()[..2];
  }

  lemma {:induction false} CellTextsAt(cells: seq<Cell>, i: nat)
    requires i < |cells|
    ensures |CellTexts(cells)| == |cells| && CellTexts(cells)[i] == CellText(cells[i])
  {
    FieldsAreFieldsOfTexts(cells);
    if i > 0 {
      CellTextsAt(cells[1..], i - 1);
    }
  }

  lemma FirstCells(r: FlatRow)
    ensures var c := Cells(r);
            && |c| == 15
            && c[0] == Text(r.kind.Name()) && c[1] == Text(r.category) && c[2] == Text(r.subject)
            && c[3] == Text(r.term) && c[4] == Text(r.verdict) && c[5] == Number(r.records)
            && c[6] == Number(r.channels)
  {
  }

  lemma LastCells(r: FlatRow)
    ensures var c := Cells(r);
            && |c| == 15
            && c[7] == Text(r.receiptId) && c[8] == Text(r.source) && c[9] == Text(r.channel) && c[10] == Text(r.tier)
            && c[11] == Text(r.url) && c[12] == Number(r.createdUtc) && c[13] == Text(r.excerpt)
            && c[14] == Number(r.corpusRecords)
  {
  }

  lemma SameTextsSameRow(a: FlatRow, b: FlatRow)
    requires CellTexts(Cells(a)) == CellTexts(Cells(b))
    ensures a == b
  {
    forall i | 0 <= i < 15 ensures CellText(Cells(a)[i]) == CellText(Cells(b)[i]) {
      CellTextsAt(Cells(a), i);
      CellTextsAt(Cells(b), i);
    }
    FirstCells(a);
    FirstCells(b);
    LastCells(a);
    LastCells(b);
    KindByName(a.kind, b.kind);
    D.Injective(a.records, b.records);
    D.Injective(a.channels, b.channels);
    D.Injective(a.createdUtc, b.createdUtc);
    D.Injective(a.corpusRecords, b.corpusRecords);
  }

  lemma {:induction false} SameTableSameRows(xs: seq<FlatRow>, ys: seq<FlatRow>)
    requires Table(xs) == Table(ys)
    ensures xs == ys
  {
    if xs != [] && ys != [] {
      assert Table(xs)[0] == Table(ys)[0] && Table(xs)[1..] == Table(ys)[1..];
      SameTextsSameRow(xs[0], ys[0]);
      SameTableSameRows(xs[1..], ys[1..]);
      assert xs == [xs[0]] + xs[1..] && ys == [ys[0]] + ys[1..];
    }
  }

  /** Different rows never print alike. */
  lemma Injective(xs: seq<FlatRow>, ys: seq<FlatRow>)
    requires CsvText(xs) == CsvText(ys)
    ensures xs == ys
  {
    RoundTrip(xs);
    RoundTrip(ys);
    assert ([CSV_HEADER] + Table(xs))[1..] == Table(xs) && ([CSV_HEADER] + Table(ys))[1..] == Table(ys);
    SameTableSameRows(xs, ys);
  }
}
