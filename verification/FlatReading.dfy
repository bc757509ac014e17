/**
  What a reader gets back out of the flat rows: each claim with its counts and receipts, and for every other
  row which value stands in which column.
 */
module FlatReading {
  import opened Basics
  import opened Csv
  import opened FlatRows

  // ---- Columns ----

  /** The text of the field a column is named after. */
  function FieldNamed(r: FlatRow, name: string): string
  {
    if name == "kind" then r.kind.Name()
    else if name == "category" then r.category
    else if name == "subject" then r.subject
    else if name == "term" then r.term
    else if name == "verdict" then r.verdict
    else if name == "records" then CellText(Number(r.records))
    else if name == "channels" then CellText(Number(r.channels))
    else FieldNamedFurther(r, name)
  }

  function FieldNamedFurther(r: FlatRow, name: string): string
  {
    if name == "receipt_id" then r.receiptId
    else if name == "source" then r.source
    else if name == "channel" then r.channel
    else if name == "tier" then r.tier
    else if name == "url" then r.url
    else if name == "created_utc" then CellText(Number(r.createdUtc))
    else if name == "excerpt" then r.excerpt
    else CellText(Number(r.corpusRecords))
  }

  lemma FirstColumns(r: FlatRow)
    ensures FieldNamed(r, "kind") == r.kind.Name() && FieldNamed(r, "category") == r.category
    ensures FieldNamed(r, "subject") == r.subject && FieldNamed(r, "term") == r.term
    ensures FieldNamed(r, "verdict") == r.verdict && FieldNamed(r, "records") == CellText(Number(r.records))
    ensures FieldNamed(r, "channels") == CellText(Number(r.channels))
  {
  }

  /** A name that starts with neither of these letters is none of the first seven. */
  lemma LaterColumn(r: FlatRow, name: string)
    requires name in {"receipt_id", "source", "channel", "tier", "url", "created_utc", "excerpt", "corpus_records"}
    ensures FieldNamed(r, name) == FieldNamedFurther(r, name)
  {
  }

  lemma FurtherColumns(r: FlatRow)
    ensures FieldNamedFurther(r, "receipt_id") == r.receiptId && FieldNamedFurther(r, "source") == r.source
    ensures FieldNamedFurther(r, "channel") == r.channel && FieldNamedFurther(r, "tier") == r.tier
    ensures FieldNamedFurther(r, "url") == r.url
    ensures FieldNamedFurther(r, "created_utc") == CellText(Number(r.createdUtc))
    ensures FieldNamedFurther(r, "excerpt") == r.excerpt
    ensures FieldNamedFurther(r, "corpus_records") == CellText(Number(r.corpusRecords))
  {
  }

  /** Where each name stands in the header. */
  lemma FirstNames()
    ensures |CSV_HEADER| == 15
    ensures CSV_HEADER[0] == "kind" && CSV_HEADER[1] == "category" && CSV_HEADER[2] == "subject"
    ensures CSV_HEADER[3] == "term" && CSV_HEADER[4] == "verdict" && CSV_HEADER[5] == "records"
    ensures CSV_HEADER[6] == "channels"
  {
  }

  lemma LaterNames()
    ensures |CSV_HEADER| == 15
    ensures CSV_HEADER[7] == "receipt_id" && CSV_HEADER[8] == "source" && CSV_HEADER[9] == "channel"
    ensures CSV_HEADER[10] == "tier" && CSV_HEADER[11] == "url" && CSV_HEADER[12] == "created_utc"
    ensures CSV_HEADER[13] == "excerpt" && CSV_HEADER[14] == "corpus_records"
  {
  }

  lemma EarlyCellsNamed(r: FlatRow, k: nat)
    requires k < 7
    ensures |Cells(r)| == 15 && |CSV_HEADER| == 15 && CellText(Cells(r)[k]) == FieldNamed(r, CSV_HEADER[k])
  {
    FirstCells(r);
    FirstNames();
    FirstColumns(r);
  }

  lemma LateCellsNamed(r: FlatRow, k: nat)
    requires 7 <= k < 15
    ensures |Cells(r)| == 15 && |CSV_HEADER| == 15 && CellText(Cells(r)[k]) == FieldNamed(r, CSV_HEADER[k])
  {
    LastCells(r);
    LaterNames();
    FurtherColumns(r);
    LaterColumn(r, CSV_HEADER[k]);
  }

  lemma {:induction false} TableAt(rows: seq<FlatRow>, i: nat)
    requires i < |rows|
    ensures |Table(rows)| == |rows| && Table(rows)[i] == CellTexts(Cells(rows[i]))
  {
    TableLength(rows);
    if i > 0 {
      TableAt(rows[1..], i - 1);
    }
  }

  lemma {:induction false} TableLength(rows: seq<FlatRow>)
    ensures |Table(rows)| == |rows|
  {
    if rows != [] {
      TableLength(rows[1..]);
    }
  }

  /** Whoever reads the text finds in each record, under each name of the header, the field of that name. */
  lemma ColumnsHoldWhatTheyName(rows: seq<FlatRow>, i: nat, k: nat)
    requires i < |rows| && k < |CSV_HEADER|
    ensures var table := ReadCsv(CsvText(rows));
            && table.Some? && |table.value| == |rows| + 1 && table.value[0] == CSV_HEADER
            && |table.value[i + 1]| == |CSV_HEADER| && table.value[i + 1][k] == FieldNamed(rows[i], CSV_HEADER[k])
  {
    RoundTrip(rows);
    TableAt(rows, i);
    assert ([CSV_HEADER] + Table(rows))[i + 1] == Table(rows)[i];
    FirstNames();
    if k < 7 {
      EarlyCellsNamed(rows[i], k);
    } else {
      LateCellsNamed(rows[i], k);
    }
    CellTextsAt(Cells(rows[i]), k);
  }

  // ---- Claims ----

  /** The receipt a row shows. */
  function ShownIn(r: FlatRow): Shown
  {
    Shown(r.receiptId, r.source, r.channel, r.tier, r.url, r.createdUtc, r.excerpt)
  }

  /** The row carries what the claim says. */
  predicate IsOfClaim(r: FlatRow, c: ClaimResult)
  {
    r.term == c.term && r.verdict == c.verdict && r.records == c.records && r.channels == c.channels
  }

  /** A claim row starts a claim, and an evidence row that carries the same adds its receipt to it. */
  function ClaimsIn(rows: seq<FlatRow>): seq<ClaimResult>
  {
    if rows == [] then []
    else NextClaim(ClaimsIn(rows[..|rows| - 1]), rows[|rows| - 1])
  }

  function NextClaim(claims: seq<ClaimResult>, r: FlatRow): seq<ClaimResult>
  {
    var n := |claims|;
    if r.kind == Claim then claims + [ClaimResult(r.term, r.verdict, r.records, r.channels, [])]
    else if r.kind == Evidence && n > 0 && IsOfClaim(r, claims[n - 1])
    then claims[n - 1 := claims[n - 1].(evidence := claims[n - 1].evidence + [ShownIn(r)])]
    else claims
  }

  lemma OneMoreRow(rows: seq<FlatRow>, r: FlatRow)
    ensures ClaimsIn(rows + [r]) == NextClaim(ClaimsIn(rows), r)
  {
    FrontAndLast(rows, r);
  }

  lemma {:induction false} OtherRowsClaimNothing(before: seq<FlatRow>, rows: seq<FlatRow>)
    requires AllOther(rows)
    ensures ClaimsIn(before + rows) == ClaimsIn(before)
  {
    if rows == [] {
      assert before + rows == before;
    } else {
      var front, last := rows[..|rows| - 1], rows[|rows| - 1];
      assert rows == front + [last];
      assert last in rows && IsOther(last);
      OtherRowsClaimNothing(before, front);
      Associative(before, front, [last]);
      OneMoreRow(before + front, last);
    }
  }

  lemma ReplaceLast(claims: seq<ClaimResult>, c: ClaimResult, d: ClaimResult)
    ensures (claims + [c])[|claims| := d] == claims + [d]
  {
  }

  lemma LastReceipt(rows: seq<FlatRow>, r: FlatRow, shown: seq<Shown>)
    requires OnePerReceipt(rows, r, shown) && rows != []
    ensures var k := |rows| - 1;
            && rows == rows[..k] + [WithReceipt(r, shown[k])] && shown == shown[..k] + [shown[k]]
            && OnePerReceipt(rows[..k], r, shown[..k])
  {
  }

  /** A claim row and the rows of its first receipts. */
  lemma {:induction false} BlockReads(
      run: RunResult, before: seq<FlatRow>, rows: seq<FlatRow>, c: ClaimResult, shown: seq<Shown>)
    requires OnePerReceipt(rows, ClaimRow(run, Evidence, c), shown)
    ensures ClaimsIn(before + [ClaimRow(run, Claim, c)] + rows) == ClaimsIn(before) + [c.(evidence := shown)]
  {
    var claimed := before + [ClaimRow(run, Claim, c)];
    if rows == [] {
      assert claimed + rows == claimed && shown == [];
      OneMoreRow(before, ClaimRow(run, Claim, c));
    } else {
      var k := |rows| - 1;
      var last := WithReceipt(ClaimRow(run, Evidence, c), shown[k]);
      LastReceipt(rows, ClaimRow(run, Evidence, c), shown);
      BlockReads(run, before, rows[..k], c, shown[..k]);
      Associative(claimed, rows[..k], [last]);
      OneMoreRow(claimed + rows[..k], last);
      ReplaceLast(ClaimsIn(before), c.(evidence := shown[..k]), c.(evidence := shown));
    }
  }

  lemma OneBlockReads(run: RunResult, before: seq<FlatRow>, block: seq<FlatRow>, c: ClaimResult)
    requires IsClaimBlock(run, block, c)
    ensures ClaimsIn(before + block) == ClaimsIn(before) + [c]
  {
    HeadAndTail(block);
    Associative(before, [block[0]], block[1..]);
    BlockReads(run, before, block[1..], c, c.evidence);
  }

  lemma {:induction false} BlocksRead(
      run: RunResult, before: seq<FlatRow>, rows: seq<FlatRow>, claims: seq<ClaimResult>)
    requires AreClaimBlocks(run, rows, claims)
    ensures ClaimsIn(before + rows) == ClaimsIn(before) + claims
    decreases |claims|
  {
    if claims == [] {
      assert before + rows == before;
    } else {
      var n := 1 + |claims[0].evidence|;
      OneBlockReads(run, before, rows[..n], claims[0]);
      BlocksRead(run, before + rows[..n], rows[n..], claims[1..]);
      CutAfter(rows, n);
      Associative(before, rows[..n], rows[n..]);
      HeadAndTail(claims);
      Associative(ClaimsIn(before), [claims[0]], claims[1..]);
    }
  }

  /** A row that is no claim's. */
  predicate IsOther(r: FlatRow) { !r.kind.Claim? && !r.kind.Evidence? }

  predicate AllOther(rows: seq<FlatRow>) { forall r :: r in rows ==> IsOther(r) }

  lemma OtherParts(run: RunResult, p: Parts)
    requires ArePartsOf(run, p)
    ensures AllOther(p.attested) && AllOther(p.themes) && AllOther(p.trends) && AllOther(p.sides)
  {
    TermRowsCompare(run, p.sides, run.comparison);
  }

  /** Reading the rows gives back every claim, with its verdict, its counts and its receipts, in order. */
  lemma ClaimsReadBack(run: RunResult, p: Parts)
    requires ArePartsOf(run, p)
    ensures ClaimsIn(p.All()) == run.claims
  {
    BlocksRead(run, [], p.claims, run.claims);
    OtherParts(run, p);
    OtherRowsClaimNothing(p.claims, p.attested);
    OtherRowsClaimNothing(p.claims + p.attested, p.themes);
    OtherRowsClaimNothing(p.claims + p.attested + p.themes, p.trends);
    OtherRowsClaimNothing(p.claims + p.attested + p.themes + p.trends, p.sides);
    assert [] + p.claims == p.claims;
  }

  // ---- The other rows ----

  function IsKind(kind: RowKind): FlatRow -> bool { (r: FlatRow) => r.kind == kind }

  /** The rows of one kind, in order. */
  ghost function OfKind(kind: RowKind, rows: seq<FlatRow>): seq<FlatRow> { Pick(rows, Places(IsKind(kind), rows)) }

  lemma {:induction false} OfKindAppend(kind: RowKind, xs: seq<FlatRow>, ys: seq<FlatRow>)
    ensures OfKind(kind, xs + ys) == OfKind(kind, xs) + OfKind(kind, ys)
  {
    if ys == [] {
      assert xs + ys == xs && OfKind(kind, ys) == [];
    } else {
      var front, last := ys[..|ys| - 1], ys[|ys| - 1];
      assert ys == front + [last];
      OfKindAppend(kind, xs, front);
      Associative(xs, front, [last]);
      PickLast(IsKind(kind), xs + front, last);
      PickLast(IsKind(kind), front, last);
    }
  }

  predicate AllOfKind(kind: RowKind, rows: seq<FlatRow>) { forall r :: r in rows ==> r.kind == kind }

  predicate NoneOf(kind: RowKind, rows: seq<FlatRow>) { forall r :: r in rows ==> r.kind != kind }

  lemma {:induction false} OfKindAll(kind: RowKind, rows: seq<FlatRow>)
    requires AllOfKind(kind, rows)
    ensures OfKind(kind, rows) == rows
  {
    if rows != [] {
      var front, last := rows[..|rows| - 1], rows[|rows| - 1];
      assert rows == front + [last];
      OfKindAll(kind, front);
      PickLast(IsKind(kind), front, last);
    }
  }

  lemma {:induction false} OfKindNone(kind: RowKind, rows: seq<FlatRow>)
    requires NoneOf(kind, rows)
    ensures OfKind(kind, rows) == []
  {
    if rows != [] {
      var front, last := rows[..|rows| - 1], rows[|rows| - 1];
      assert rows == front + [last];
      OfKindNone(kind, front);
      PickLast(IsKind(kind), front, last);
    }
  }

  lemma OfKindParts(kind: RowKind, p: Parts)
    ensures OfKind(kind, p.All())
         == OfKind(kind, p.claims) + OfKind(kind, p.attested) + OfKind(kind, p.themes)
            + OfKind(kind, p.trends) + OfKind(kind, p.sides)
  {
    OfKindAppend(kind, p.claims + p.attested + p.themes + p.trends, p.sides);
    OfKindAppend(kind, p.claims + p.attested + p.themes, p.trends);
    OfKindAppend(kind, p.claims + p.attested, p.themes);
    OfKindAppend(kind, p.claims, p.attested);
  }

  lemma {:induction false} BlocksAreClaims(run: RunResult, rows: seq<FlatRow>, claims: seq<ClaimResult>, kind: RowKind)
    requires AreClaimBlocks(run, rows, claims) && !kind.Claim? && !kind.Evidence?
    ensures NoneOf(kind, rows)
    decreases |claims|
  {
    if claims != [] {
      var n := 1 + |claims[0].evidence|;
      BlocksAreClaims(run, rows[n..], claims[1..], kind);
      CutAfter(rows, n);
      HeadAndTail(rows[..n]);
    }
  }

  lemma PartsAreOfKind(run: RunResult, p: Parts)
    requires ArePartsOf(run, p)
    ensures AllOfKind(Attested, p.attested) && AllOfKind(Theme, p.themes)
    ensures AllOfKind(Trend, p.trends) && AllOfKind(Comparison, p.sides)
  {
    TermRowsCompare(run, p.sides, run.comparison);
  }

  lemma OfOneKind(kind: RowKind, part: RowKind, rows: seq<FlatRow>)
    requires AllOfKind(part, rows)
    ensures OfKind(kind, rows) == if kind == part then rows else []
  {
    if kind == part {
      OfKindAll(kind, rows);
    } else {
      OfKindNone(kind, rows);
    }
  }

  lemma JoinFive<T>(a: seq<T>, b: seq<T>, c: seq<T>, d: seq<T>)
    ensures [] + a + [] + [] + [] == a && [] + [] + b + [] + [] == b
    ensures [] + [] + [] + c + [] == c && [] + [] + [] + [] + d == d
  {
  }

  /** Of each further kind the rows are one part. */
  lemma KindsAreParts(run: RunResult, p: Parts)
    requires ArePartsOf(run, p)
    ensures OfKind(Attested, p.All()) == p.attested && OfKind(Theme, p.All()) == p.themes
    ensures OfKind(Trend, p.All()) == p.trends && OfKind(Comparison, p.All()) == p.sides
  {
    PartsAreOfKind(run, p);
    JoinFive(p.attested, p.themes, p.trends, p.sides);
    KindIsPart(run, p, Attested);
    KindIsPart(run, p, Theme);
    KindIsPart(run, p, Trend);
    KindIsPart(run, p, Comparison);
  }

  lemma KindIsPart(run: RunResult, p: Parts, kind: RowKind)
    requires ArePartsOf(run, p) && !kind.Claim? && !kind.Evidence?
    requires AllOfKind(Attested, p.attested) && AllOfKind(Theme, p.themes)
    requires AllOfKind(Trend, p.trends) && AllOfKind(Comparison, p.sides)
    ensures OfKind(kind, p.All())
         == [] + (if kind == Attested then p.attested else []) + (if kind == Theme then p.themes else [])
            + (if kind == Trend then p.trends else []) + if kind == Comparison then p.sides else []
  {
    OfKindParts(kind, p);
    BlocksAreClaims(run, p.claims, run.claims, kind);
    OfKindNone(kind, p.claims);
    OfOneKind(kind, Attested, p.attested);
    OfOneKind(kind, Theme, p.themes);
    OfOneKind(kind, Trend, p.trends);
    OfOneKind(kind, Comparison, p.sides);
  }

  // ---- What they say ----

  predicate TellsAttested(r: FlatRow, a: AttestedResult, e: Shown)
  {
    r.term == "" && r.verdict == a.verdict && r.records == a.records && r.channels == 0 && ShownIn(r) == e
  }

  predicate TellsTheme(r: FlatRow, t: ThemeResult)
  {
    && r.term == t.phrase && r.verdict == t.verdict && r.records == t.records && r.channels == t.channels
    && ShownIn(r) == Shown(if t.receiptIds == [] then "" else t.receiptIds[0], "", "", "", "", 0, "")
  }

  predicate TellsTrend(r: FlatRow, t: TrendResult)
  {
    && r.term == t.term && r.verdict == t.direction && r.records == t.records && r.channels == t.total
    && ShownIn(r) == Shown("", "", "", "", "", 0, t.reason)
  }

  predicate TellsSide(r: FlatRow, t: TermResult, side: Side)
  {
    && r.subject == side.subject && r.category == side.category && r.corpusRecords == side.corpusRecords
    && r.term == t.term && r.verdict == side.verdict && r.records == side.records && r.channels == side.channels
    && ShownIn(r) == Shown(if side.sampleReceiptIds == [] then "" else side.sampleReceiptIds[0], "", "", "", "", 0,
                           if t.louder == side.subject then "louder here: " + t.reason else t.reason)
  }

  function SidesOfTerm(t: TermResult): seq<(TermResult, Side)>
  {
    seq(|t.sides|, i requires 0 <= i < |t.sides| => (t, t.sides[i]))
  }

  /** The terms with their sides, one after the other. */
  function SidesOf(terms: seq<TermResult>): seq<(TermResult, Side)>
  {
    if terms == [] then [] else SidesOfTerm(terms[0]) + SidesOf(terms[1..])
  }

  predicate TellSides(rows: seq<FlatRow>, sides: seq<(TermResult, Side)>)
  {
    |rows| == |sides| && forall i :: 0 <= i < |rows| ==> TellsSide(rows[i], sides[i].0, sides[i].1)
  }

  lemma TellSidesAppend(xs: seq<FlatRow>, ys: seq<FlatRow>, a: seq<(TermResult, Side)>, b: seq<(TermResult, Side)>)
    requires TellSides(xs, a) && TellSides(ys, b)
    ensures TellSides(xs + ys, a + b)
  {
  }

  lemma SideRowsTell(run: RunResult, rows: seq<FlatRow>, t: TermResult)
    requires AreSideRows(run, rows, t)
    ensures TellSides(rows, SidesOfTerm(t))
  {
  }

  lemma {:induction false} TermRowsTell(run: RunResult, rows: seq<FlatRow>, terms: seq<TermResult>)
    requires AreTermRows(run, rows, terms)
    ensures TellSides(rows, SidesOf(terms))
    decreases |terms|
  {
    if terms != [] {
      var n := |terms[0].sides|;
      SideRowsTell(run, rows[..n], terms[0]);
      TermRowsTell(run, rows[n..], terms[1..]);
      CutAfter(rows, n);
      TellSidesAppend(rows[..n], rows[n..], SidesOfTerm(terms[0]), SidesOf(terms[1..]));
    }
  }

  /** Every row but a side's is about the run's own subject, by its title or else its category. */
  predicate IsAbout(r: FlatRow, run: RunResult)
  {
    r.category == run.category && r.subject == if run.title != "" then run.title else run.category
  }

  lemma {:induction false} BlocksAreAbout(run: RunResult, rows: seq<FlatRow>, claims: seq<ClaimResult>)
    requires AreClaimBlocks(run, rows, claims)
    ensures forall r :: r in rows ==> IsAbout(r, run)
    decreases |claims|
  {
    if claims != [] {
      var n := 1 + |claims[0].evidence|;
      BlocksAreAbout(run, rows[n..], claims[1..]);
      CutAfter(rows, n);
      HeadAndTail(rows[..n]);
    }
  }

  /** Every other row is about the run's subject. */
  lemma RowsAreAbout(run: RunResult, p: Parts)
    requires ArePartsOf(run, p)
    ensures forall r :: r in p.All() && !r.kind.Comparison? ==> IsAbout(r, run)
  {
    BlocksAreAbout(run, p.claims, run.claims);
    TermRowsCompare(run, p.sides, run.comparison);
  }

  lemma AttestedTell(run: RunResult, p: Parts, a: AttestedResult)
    requires ArePartsOf(run, p) && run.attested == Some(a)
    ensures |p.attested| == |a.evidence|
    ensures forall i :: 0 <= i < |p.attested| ==> TellsAttested(p.attested[i], a, a.evidence[i])
  {
  }

  /**
    The rows of each kind say, in order, what the run found: of every attested receipt, theme, trend and side
    of a comparison which value stands in which column.
   */
  lemma RowsTell(run: RunResult, p: Parts)
    requires ArePartsOf(run, p)
    ensures var themes := OfKind(Theme, p.All());
            |themes| == |run.themes| && forall i :: 0 <= i < |themes| ==> TellsTheme(themes[i], run.themes[i])
    ensures var trends := OfKind(Trend, p.All());
            |trends| == |run.trends| && forall i :: 0 <= i < |trends| ==> TellsTrend(trends[i], run.trends[i])
    ensures TellSides(OfKind(Comparison, p.All()), SidesOf(run.comparison))
    ensures match run.attested
            case None => OfKind(Attested, p.All()) == []
            case Some(a) =>
              && |OfKind(Attested, p.All())| == |a.evidence|
              && forall i :: 0 <= i < |a.evidence| ==> TellsAttested(OfKind(Attested, p.All())[i], a, a.evidence[i])
  {
    KindsAreParts(run, p);
    TermRowsTell(run, p.sides, run.comparison);
    if run.attested.Some? {
      AttestedTell(run, p, run.attested.value);
    }
  }
}
