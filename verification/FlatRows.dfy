/**
  The flat rows of packages/cli/src/formats.ts: a run result as one row per claim, receipt, theme, trend and
  side of a comparison, which is what the CSV and NDJSON outputs print.
 */
module FlatRows {
  import opened Basics
  import opened Csv

  datatype Shown = Shown(
    receiptId: string, source: string, channel: string, tier: string, url: string, createdUtc: nat, excerpt: string)

  datatype ClaimResult = ClaimResult(term: string, verdict: string, records: nat, channels: nat, evidence: seq<Shown>)

  datatype AttestedResult = AttestedResult(verdict: string, records: nat, evidence: seq<Shown>)

  datatype ThemeResult = ThemeResult(phrase: string, verdict: string, records: nat, channels: nat,
                                     receiptIds: seq<string>)

  datatype TrendResult = TrendResult(term: string, direction: string, records: nat, total: nat, reason: string)

  datatype Side = Side(
    subject: string, category: string, verdict: string, records: nat, channels: nat, corpusRecords: nat,
    sampleReceiptIds: seq<string>)

  datatype TermResult = TermResult(term: string, reason: string, louder: string, sides: seq<Side>)

  /** `categoryRecords` is the first share-of-voice block's denominator, when there is one. */
  datatype RunResult = RunResult(
    category: string, title: string, categoryRecords: Option<nat>, docs: nat, claims: seq<ClaimResult>,
    attested: Option<AttestedResult>, themes: seq<ThemeResult>, trends: seq<TrendResult>,
    comparison: seq<TermResult>)
  {
    function Subject(): string { if title == "" then category else title }

    /** The denominator of every row about the run's own subject. */
    function Denominator(): nat { match categoryRecords case Some(n) => n case None => docs }
  }

  // ---- Rows ----

  function FirstOf(ids: seq<string>): string { if ids == [] then "" else ids[0] }

  function Blank(run: RunResult, kind: RowKind): FlatRow
  {
    FlatRow(kind, run.category, run.Subject(), "", "", 0, 0, "", "", "", "", "", 0, "", run.Denominator())
  }

  function WithReceipt(r: FlatRow, e: Shown): FlatRow
  {
    r.(receiptId := e.receiptId, source := e.source, channel := e.channel, tier := e.tier, url := e.url,
       createdUtc := e.createdUtc, excerpt := e.excerpt)
  }

  function ClaimRow(run: RunResult, kind: RowKind, c: ClaimResult): FlatRow
  {
    Blank(run, kind).(term := c.term, verdict := c.verdict, records := c.records, channels := c.channels)
  }

  function AttestedRow(run: RunResult, a: AttestedResult): FlatRow
  {
    Blank(run, Attested).(verdict := a.verdict, records := a.records)
  }

  function ThemeRow(run: RunResult, t: ThemeResult): FlatRow
  {
    Blank(run, Theme).(term := t.phrase, verdict := t.verdict, records := t.records, channels := t.channels,
                       receiptId := FirstOf(t.receiptIds))
  }

  function TrendRow(run: RunResult, t: TrendResult): FlatRow
  {
    Blank(run, Trend).(term := t.term, verdict := t.direction, records := t.records, channels := t.total,
                       excerpt := t.reason)
  }

  function SideRow(run: RunResult, t: TermResult, side: Side): FlatRow
  {
    Blank(run, Comparison).(
      subject := side.subject, category := side.category, term := t.term, verdict := side.verdict,
      records := side.records, channels := side.channels, corpusRecords := side.corpusRecords,
      receiptId := FirstOf(side.sampleReceiptIds),
      excerpt := if t.louder == side.subject then "louder here: " + t.reason else t.reason)
  }

  // ---- What a reader can rely on ----

  /** The receipts of the rows of one kind, in order. */
  function ReceiptsOf(kind: RowKind, rows: seq<FlatRow>): seq<string>
  {
    if rows == [] then []
    else (if rows[0].kind == kind then [rows[0].receiptId] else []) + ReceiptsOf(kind, rows[1..])
  }

  function Shows(evidence: seq<Shown>): seq<string>
  {
    if evidence == [] then [] else [evidence[0].receiptId] + Shows(evidence[1..])
  }

  function ShownBy(claims: seq<ClaimResult>): seq<string>
  {
    if claims == [] then [] else Shows(claims[0].evidence) + ShownBy(claims[1..])
  }

  /** Rows that carry what `r` says, each with one of these receipts, in order. */
  predicate OnePerReceipt(rows: seq<FlatRow>, r: FlatRow, evidence: seq<Shown>)
  {
    |rows| == |evidence| && forall i :: 0 <= i < |rows| ==> rows[i] == WithReceipt(r, evidence[i])
  }

  /**
    The row a claim has, and after it a row with its verdict and counts for each receipt shown for it:
    grouping these rows by claim gives back the claim's own counts and receipts.
   */
  predicate IsClaimBlock(run: RunResult, block: seq<FlatRow>, c: ClaimResult)
  {
    && block != [] && block[0] == ClaimRow(run, Claim, c)
    && OnePerReceipt(block[1..], ClaimRow(run, Evidence, c), c.evidence)
  }

  /** Blocks for these claims, one after the other. */
  predicate AreClaimBlocks(run: RunResult, rows: seq<FlatRow>, claims: seq<ClaimResult>)
  {
    if claims == [] then rows == []
    else
      var n := 1 + |claims[0].evidence|;
      n <= |rows| && IsClaimBlock(run, rows[..n], claims[0]) && AreClaimBlocks(run, rows[n..], claims[1..])
  }

  predicate AreSideRows(run: RunResult, rows: seq<FlatRow>, t: TermResult)
  {
    |rows| == |t.sides| && forall i :: 0 <= i < |rows| ==> rows[i] == SideRow(run, t, t.sides[i])
  }

  predicate AreTermRows(run: RunResult, rows: seq<FlatRow>, terms: seq<TermResult>)
  {
    if terms == [] then rows == []
    else
      var n := |terms[0].sides|;
      n <= |rows| && AreSideRows(run, rows[..n], terms[0]) && AreTermRows(run, rows[n..], terms[1..])
  }

  datatype Parts = Parts(
    claims: seq<FlatRow>, attested: seq<FlatRow>, themes: seq<FlatRow>, trends: seq<FlatRow>, sides: seq<FlatRow>)
  {
    function All(): seq<FlatRow> { claims + attested + themes + trends + sides }
  }

  /** The five kinds of blocks, in order. */
  ghost predicate ArePartsOf(run: RunResult, p: Parts)
  {
    && AreClaimBlocks(run, p.claims, run.claims)
    && (match run.attested
        case None => p.attested == []
        case Some(a) => OnePerReceipt(p.attested, AttestedRow(run, a), a.evidence))
    && |p.themes| == |run.themes| && (forall i :: 0 <= i < |p.themes| ==> p.themes[i] == ThemeRow(run, run.themes[i]))
    && |p.trends| == |run.trends| && (forall i :: 0 <= i < |p.trends| ==> p.trends[i] == TrendRow(run, run.trends[i]))
    && AreTermRows(run, p.sides, run.comparison)
  }

  // ---- The loops ----

  method PushReceipts(rows: seq<FlatRow>, r: FlatRow, evidence: seq<Shown>)
    returns (more: seq<FlatRow>, ghost added: seq<FlatRow>)
    ensures more == rows + added && OnePerReceipt(added, r, evidence)
  {
    more, added := rows, [];
    for i := 0 to |evidence|
      invariant more == rows + added && OnePerReceipt(added, r, evidence[..i])
    {
      more := more + [WithReceipt(r, evidence[i])];
      added := added + [WithReceipt(r, evidence[i])];
    }
    assert evidence[..|evidence|] == evidence;
  }

  method PushClaims(run: RunResult) returns (rows: seq<FlatRow>)
    ensures AreClaimBlocks(run, rows, run.claims)
  {
    rows := [];
    for i := 0 to |run.claims|
      invariant AreClaimBlocks(run, rows, run.claims[..i])
    {
      var claim := run.claims[i];
      ghost var before := rows;
      rows := rows + [ClaimRow(run, Claim, claim)];
      ghost var added;
      rows, added := PushReceipts(rows, ClaimRow(run, Evidence, claim), claim.evidence);
      ghost var block := [ClaimRow(run, Claim, claim)] + added;
      assert block[1..] == added && rows == before + block;
      OneMoreBlock(run, before, run.claims[..i], block, claim);
      OneMore(run.claims, i);
    }
    WholePrefix(run.claims);
  }

  lemma OnlyBlock(run: RunResult, block: seq<FlatRow>, c: ClaimResult)
    requires IsClaimBlock(run, block, c)
    ensures AreClaimBlocks(run, block, [c])
  {
    assert block[..|block|] == block && block[|block|..] == [] && [c][1..] == [];
  }

  /** A list cut inside its first part. */
  lemma CutFirst(rows: seq<FlatRow>, more: seq<FlatRow>, n: nat)
    requires n <= |rows|
    ensures (rows + more)[..n] == rows[..n] && (rows + more)[n..] == rows[n..] + more
  {
  }

  lemma {:induction false} OneMoreBlock(
      run: RunResult, rows: seq<FlatRow>, claims: seq<ClaimResult>, block: seq<FlatRow>, c: ClaimResult)
    requires AreClaimBlocks(run, rows, claims) && IsClaimBlock(run, block, c)
    ensures AreClaimBlocks(run, rows + block, claims + [c])
    decreases |claims|
  {
    if claims == [] {
      OnlyBlock(run, block, c);
      assert [] + block == block && claims + [c] == [c];
    } else {
      var n := 1 + |claims[0].evidence|;
      OneMoreBlock(run, rows[n..], claims[1..], block, c);
      CutFirst(rows, block, n);
      assert (claims + [c])[1..] == claims[1..] + [c];
    }
  }

  method PushTerms(run: RunResult) returns (rows: seq<FlatRow>)
    ensures AreTermRows(run, rows, run.comparison)
  {
    rows := [];
    for i := 0 to |run.comparison|
      invariant AreTermRows(run, rows, run.comparison[..i])
    {
      var term := run.comparison[i];
      var sides: seq<FlatRow> := [];
      for j := 0 to |term.sides|
        invariant |sides| == j && forall k :: 0 <= k < j ==> sides[k] == SideRow(run, term, term.sides[k])
      {
        sides := sides + [SideRow(run, term, term.sides[j])];
      }
      OneMoreTerm(run, rows, run.comparison[..i], sides, term);
      rows := rows + sides;
      OneMore(run.comparison, i);
    }
    WholePrefix(run.comparison);
  }

  lemma {:induction false} OneMoreTerm(
      run: RunResult, rows: seq<FlatRow>, terms: seq<TermResult>, sides: seq<FlatRow>, t: TermResult)
    requires AreTermRows(run, rows, terms) && AreSideRows(run, sides, t)
    ensures AreTermRows(run, rows + sides, terms + [t])
    decreases |terms|
  {
    if terms == [] {
      assert rows + sides == sides && sides[..|sides|] == sides && sides[|sides|..] == [] && [t][1..] == [];
      assert terms + [t] == [t];
    } else {
      var n := |terms[0].sides|;
      OneMoreTerm(run, rows[n..], terms[1..], sides, t);
      assert (rows + sides)[..n] == rows[..n] && (rows + sides)[n..] == rows[n..] + sides;
      assert (terms + [t])[1..] == terms[1..] + [t];
    }
  }

  /** `flatRows`. */
  method FlatRows(run: RunResult) returns (rows: seq<FlatRow>, ghost parts: Parts)
    ensures ArePartsOf(run, parts) && rows == parts.All()
  {
    var claims := PushClaims(run);
    var attested: seq<FlatRow> := [];
    if run.attested.Some? {
      ghost var added;
      attested, added := PushReceipts([], AttestedRow(run, run.attested.value), run.attested.value.evidence);
      assert attested == added;
    }
    var themes: seq<FlatRow> := [];
    for i := 0 to |run.themes|
      invariant |themes| == i && forall k :: 0 <= k < i ==> themes[k] == ThemeRow(run, run.themes[k])
    {
      themes := themes + [ThemeRow(run, run.themes[i])];
    }
    var trends: seq<FlatRow> := [];
    for i := 0 to |run.trends|
      invariant |trends| == i && forall k :: 0 <= k < i ==> trends[k] == TrendRow(run, run.trends[k])
    {
      trends := trends + [TrendRow(run, run.trends[i])];
    }
    var sides := PushTerms(run);
    rows := claims + attested + themes + trends + sides;
    parts := Parts(claims, attested, themes, trends, sides);
  }

  // ---- Theorems ----

  lemma {:induction false} ReceiptsAppend(kind: RowKind, xs: seq<FlatRow>, ys: seq<FlatRow>)
    ensures ReceiptsOf(kind, xs + ys) == ReceiptsOf(kind, xs) + ReceiptsOf(kind, ys)
  {
    if xs == [] {
      assert xs + ys == ys;
    } else {
      assert (xs + ys)[1..] == xs[1..] + ys;
      ReceiptsAppend(kind, xs[1..], ys);
    }
  }

  lemma {:induction false} NoneOfKind(kind: RowKind, rows: seq<FlatRow>)
    requires forall r :: r in rows ==> r.kind != kind
    ensures ReceiptsOf(kind, rows) == []
  {
    if rows != [] {
      NoneOfKind(kind, rows[1..]);
    }
  }

  lemma {:induction false} ReceiptRowsShow(rows: seq<FlatRow>, r: FlatRow, evidence: seq<Shown>)
    requires OnePerReceipt(rows, r, evidence)
    ensures ReceiptsOf(r.kind, rows) == Shows(evidence)
  {
    if rows != [] {
      ReceiptRowsShow(rows[1..], r, evidence[1..]);
    }
  }

  lemma BlockShows(run: RunResult, block: seq<FlatRow>, c: ClaimResult)
    requires IsClaimBlock(run, block, c)
    ensures ReceiptsOf(Evidence, block) == Shows(c.evidence)
  {
    ReceiptRowsShow(block[1..], ClaimRow(run, Evidence, c), c.evidence);
  }

  lemma {:induction false} BlocksShow(run: RunResult, rows: seq<FlatRow>, claims: seq<ClaimResult>)
    requires AreClaimBlocks(run, rows, claims)
    ensures ReceiptsOf(Evidence, rows) == ShownBy(claims)
    decreases |claims|
  {
    if claims != [] {
      var n := 1 + |claims[0].evidence|;
      var block, rest := rows[..n], rows[n..];
      assert rows == block + rest;
      BlockShows(run, block, claims[0]);
      BlocksShow(run, rest, claims[1..]);
      ReceiptsAppend(Evidence, block, rest);
    }
  }

  lemma {:induction false} TermRowsCompare(run: RunResult, rows: seq<FlatRow>, terms: seq<TermResult>)
    requires AreTermRows(run, rows, terms)
    ensures forall r :: r in rows ==> r.kind == Comparison
    decreases |terms|
  {
    if terms != [] {
      var n := |terms[0].sides|;
      TermRowsCompare(run, rows[n..], terms[1..]);
      assert rows == rows[..n] + rows[n..];
    }
  }

  lemma ReceiptsOfParts(kind: RowKind, p: Parts)
    ensures ReceiptsOf(kind, p.All())
         == ReceiptsOf(kind, p.claims) + ReceiptsOf(kind, p.attested) + ReceiptsOf(kind, p.themes)
            + ReceiptsOf(kind, p.trends) + ReceiptsOf(kind, p.sides)
  {
    ReceiptsAppend(kind, p.claims + p.attested + p.themes + p.trends, p.sides);
    ReceiptsAppend(kind, p.claims + p.attested + p.themes, p.trends);
    ReceiptsAppend(kind, p.claims + p.attested, p.themes);
    ReceiptsAppend(kind, p.claims, p.attested);
  }

  lemma OnlyClaimsShowEvidence(run: RunResult, p: Parts)
    requires ArePartsOf(run, p)
    ensures ReceiptsOf(Evidence, p.attested) == [] && ReceiptsOf(Evidence, p.themes) == []
    ensures ReceiptsOf(Evidence, p.trends) == [] && ReceiptsOf(Evidence, p.sides) == []
  {
    TermRowsCompare(run, p.sides, run.comparison);
    NoneOfKind(Evidence, p.attested);
    NoneOfKind(Evidence, p.themes);
    NoneOfKind(Evidence, p.trends);
    NoneOfKind(Evidence, p.sides);
  }

  lemma FirstOfFive<T>(a: seq<T>, b: seq<T>, c: seq<T>, d: seq<T>, e: seq<T>)
    requires b == [] && c == [] && d == [] && e == []
    ensures a + b + c + d + e == a
  {
  }

  /** The evidence rows are the receipts shown for the claims, claim by claim, and no others. */
  lemma EvidenceIsWhatIsShown(run: RunResult, p: Parts)
    requires ArePartsOf(run, p)
    ensures ReceiptsOf(Evidence, p.All()) == ShownBy(run.claims)
  {
    BlocksShow(run, p.claims, run.claims);
    OnlyClaimsShowEvidence(run, p);
    ReceiptsOfParts(Evidence, p);
    FirstOfFive(ReceiptsOf(Evidence, p.claims), ReceiptsOf(Evidence, p.attested), ReceiptsOf(Evidence, p.themes),
                ReceiptsOf(Evidence, p.trends), ReceiptsOf(Evidence, p.sides));
  }

  lemma {:induction false} BlocksShareDenominator(run: RunResult, rows: seq<FlatRow>, claims: seq<ClaimResult>)
    requires AreClaimBlocks(run, rows, claims)
    ensures forall r :: r in rows ==> !r.kind.Comparison? && r.corpusRecords == run.Denominator()
    decreases |claims|
  {
    if claims != [] {
      var n := 1 + |claims[0].evidence|;
      var block := rows[..n];
      BlocksShareDenominator(run, rows[n..], claims[1..]);
      assert rows == [block[0]] + block[1..] + rows[n..];
    }
  }

  /** Every row about the run's own subject carries the run's denominator; only a side of a comparison has its own. */
  lemma OneDenominator(run: RunResult, p: Parts)
    requires ArePartsOf(run, p)
    ensures forall r :: r in p.All() && !r.kind.Comparison? ==>
              r.corpusRecords == if run.categoryRecords.Some? then run.categoryRecords.value else run.docs
  {
    BlocksShareDenominator(run, p.claims, run.claims);
    TermRowsCompare(run, p.sides, run.comparison);
  }
}
