/** The case a finding does not survive: one receipt id with two texts. */
module CorroborateWitness {
  import opened Corpus
  import opened Corroborate

  const AsWritten: TextKey := (t: string) => t
  const AllVoices: TierOf := (s: string) => C

  function Row(id: string, channel: string, text: string): Doc { Doc(id, "forum", channel, "comment", text, 0) }

  predicate DistinctTexts(rows: seq<Doc>)
  {
    && (forall i :: 0 <= i < |rows| ==> rows[i].text != "")
    && (forall i, j :: 0 <= i < j < |rows| ==> rows[i].text != rows[j].text)
  }

  lemma NewText(rows: seq<Doc>)
    requires DistinctTexts(rows) && rows != []
    ensures rows[|rows| - 1].text !in Texts(AsWritten, rows[..|rows| - 1])
  {
    var front, last := rows[..|rows| - 1], rows[|rows| - 1];
    TextsAre(AsWritten, front);
    forall d | d in front ensures d.text != last.text {
      var i :| 0 <= i < |front| && front[i] == d;
      assert rows[i] == d;
    }
  }

  predicate NoneTaken(taken: set<string>, rows: seq<Doc>) { forall d :: d in rows ==> d.text !in taken }

  /** Rows with a text each of their own, none taken, all count. */
  lemma {:induction false} AllCount(taken: set<string>, rows: seq<Doc>)
    requires DistinctTexts(rows) && NoneTaken(taken, rows)
    ensures Counted(AsWritten, taken, rows) == rows
  {
    if rows != [] {
      var front, last := rows[..|rows| - 1], rows[|rows| - 1];
      assert rows == front + [last];
      AllCount(taken, front);
      NewText(rows);
      NextCounted(AsWritten, taken, front, last);
    }
  }

  lemma {:induction false} AllPromote(rows: seq<Doc>)
    ensures TierCount(AllVoices, C, rows) == |rows|
  {
    if rows != [] {
      AllPromote(rows[..|rows| - 1]);
    }
  }

  lemma TwoChannels(rows: seq<Doc>, d: Doc, e: Doc)
    requires d in rows && e in rows && ChannelKey(d) != ChannelKey(e)
    ensures |ChannelKeys(rows)| >= 2
  {
    ChannelKeysAre(rows);
    SmallerSet({ChannelKey(d), ChannelKey(e)}, ChannelKeys(rows));
  }

  lemma EnoughVoices(rows: seq<Doc>, d: Doc, e: Doc)
    requires DistinctReceipts(rows) && DistinctTexts(rows) && |rows| >= MIN_RECEIPTS
    requires d in rows && e in rows && ChannelKey(d) != ChannelKey(e)
    ensures Supported(AsWritten, AllVoices, MIN_RECEIPTS, MIN_CHANNELS_FOR_FINDING, rows)
  {
    AllFirst(rows);
    AllCount({}, rows);
    AllPromote(rows);
    TwoChannels(rows, d, e);
  }

  lemma {:induction false} NoneOutside(receipts: set<string>, rows: seq<Doc>)
    requires forall i :: 0 <= i < |rows| ==> rows[i].receiptId !in receipts
    ensures Outside(receipts, rows) == rows
  {
    if rows != [] {
      NoneOutside(receipts, rows[..|rows| - 1]);
      assert rows == rows[..|rows| - 1] + [rows[|rows| - 1]];
    }
  }

  lemma TextsDiffer(a: Doc, c: Doc, d: Doc)
    requires DistinctTexts([a, c, d])
    ensures a.text != c.text && a.text != d.text && c.text != d.text && a.text != "" && c.text != "" && d.text != ""
  {
    var texts := [a, c, d];
    assert texts[0].text != texts[1].text && texts[0].text != texts[2].text && texts[1].text != texts[2].text;
    assert texts[0].text != "" && texts[1].text != "" && texts[2].text != "";
  }

  lemma FirstTwoCount(taken: set<string>, a: Doc, b: Doc)
    requires b.text == a.text && a.text !in taken && a.text != ""
    ensures Counted(AsWritten, taken, [a, b]) == [a] && Texts(AsWritten, [a, b]) == {a.text}
  {
    assert [] + [a] == [a] && [a] + [b] == [a, b];
    NextCounted(AsWritten, taken, [], a);
    NextCounted(AsWritten, taken, [a], b);
  }

  /** The rows counted against when the first two say the same. */
  lemma FirstTwoAlike(taken: set<string>, a: Doc, b: Doc, c: Doc, d: Doc)
    requires DistinctTexts([a, c, d]) && b.text == a.text
    requires a.text !in taken && c.text !in taken && d.text !in taken
    ensures Counted(AsWritten, taken, [a, b, c, d]) == [a, c, d]
  {
    assert [a, b] + [c] == [a, b, c] && [a, b, c] + [d] == [a, b, c, d];
    TextsDiffer(a, c, d);
    FirstTwoCount(taken, a, b);
    NextCounted(AsWritten, taken, [a, b], c);
    NextCounted(AsWritten, taken, [a, b, c], d);
  }

  /**
    A support, four rows against it, and a supporting row under the receipt of the first of those but with
    other words.
   */
  predicate Situation(rows: seq<Doc>, a: Doc, b: Doc, c: Doc, d: Doc, m: Doc)
  {
    && |rows| == 3 && ChannelKey(rows[0]) != ChannelKey(rows[1])
    && DistinctReceipts(rows + [a, b, c, d]) && DistinctTexts(rows + [m, a, c, d]) && b.text == a.text
    && m.receiptId == a.receiptId
    && ChannelKey(c) == ChannelKey(a) && ChannelKey(d) == ChannelKey(a) && ChannelKey(b) != ChannelKey(a)
  }

  /** The same, one position at a time. */
  lemma SituationReceipts(rows: seq<Doc>, a: Doc, b: Doc, c: Doc, d: Doc, m: Doc)
    requires Situation(rows, a, b, c, d, m)
    ensures DistinctReceipts(rows) && DistinctReceipts(rows + [m])
    ensures DistinctReceipts([a, b, c, d]) && DistinctReceipts([b, c, d])
    ensures b.receiptId != a.receiptId && c.receiptId != a.receiptId && d.receiptId != a.receiptId
    ensures forall r :: r in rows ==> r.receiptId != a.receiptId && r.receiptId != b.receiptId
                                      && r.receiptId != c.receiptId && r.receiptId != d.receiptId
  {
    var all := rows + [a, b, c, d];
    assert all[3] == a && all[4] == b && all[5] == c && all[6] == d;
    assert forall i :: 0 <= i < 3 ==> all[i] == rows[i];
  }

  lemma SituationTexts(rows: seq<Doc>, a: Doc, b: Doc, c: Doc, d: Doc, m: Doc)
    requires Situation(rows, a, b, c, d, m)
    ensures DistinctTexts(rows) && DistinctTexts(rows + [m])
    ensures DistinctTexts([a, c, d]) && DistinctTexts([b, c, d])
    ensures forall r :: r in rows + [m] ==> r.text != a.text && r.text != c.text && r.text != d.text
  {
    var texts := rows + [m, a, c, d];
    assert texts[3] == m && texts[4] == a && texts[5] == c && texts[6] == d;
    assert forall i :: 0 <= i < 3 ==> texts[i] == rows[i];
  }

  lemma Untaken(rows: seq<Doc>, m: Doc, a: Doc)
    requires forall r :: r in rows + [m] ==> r.text != a.text
    ensures a.text !in Texts(AsWritten, rows) && a.text !in Texts(AsWritten, rows + [m])
  {
    TextsAre(AsWritten, rows);
    TextsAre(AsWritten, rows + [m]);
    assert forall r :: r in rows ==> r in rows + [m];
  }

  lemma OppositionBefore(rows: seq<Doc>, a: Doc, b: Doc, c: Doc, d: Doc, m: Doc)
    requires Situation(rows, a, b, c, d, m)
    ensures Opposition(AsWritten, rows, [a, b, c, d]) == [a, c, d]
  {
    SituationReceipts(rows, a, b, c, d, m);
    SituationTexts(rows, a, b, c, d, m);
    AllFirst(rows);
    ReceiptsAre(rows);
    NoneOutside(Receipts(rows), [a, b, c, d]);
    AllFirst([a, b, c, d]);
    Untaken(rows, m, a);
    Untaken(rows, m, c);
    Untaken(rows, m, d);
    FirstTwoAlike(Texts(AsWritten, rows), a, b, c, d);
  }

  lemma NotRefutedBefore(rows: seq<Doc>, a: Doc, b: Doc, c: Doc, d: Doc, m: Doc)
    requires Situation(rows, a, b, c, d, m)
    ensures !IsRefuted(AsWritten, MIN_RECEIPTS, MIN_CHANNELS_FOR_FINDING, rows, [a, b, c, d])
  {
    var heard := [a, c, d];
    OppositionBefore(rows, a, b, c, d, m);
    assert forall e :: e in heard ==> ChannelKey(e) == ChannelKey(a);
    OneChannel(heard, ChannelKey(a));
  }

  lemma FindingBefore(rows: seq<Doc>, a: Doc, b: Doc, c: Doc, d: Doc, m: Doc)
    requires Situation(rows, a, b, c, d, m)
    ensures Judged(AsWritten, AllVoices, MIN_RECEIPTS, MIN_CHANNELS_FOR_FINDING, rows, [a, b, c, d]) == Finding
  {
    SituationReceipts(rows, a, b, c, d, m);
    SituationTexts(rows, a, b, c, d, m);
    EnoughVoices(rows, rows[0], rows[1]);
    NotRefutedBefore(rows, a, b, c, d, m);
  }

  lemma OneChannel(rows: seq<Doc>, k: string)
    requires forall d :: d in rows ==> ChannelKey(d) == k
    ensures |ChannelKeys(rows)| <= 1
  {
    ChannelKeysAre(rows);
    SmallerSet(ChannelKeys(rows), {k});
  }

  lemma OppositionAfter(rows: seq<Doc>, a: Doc, b: Doc, c: Doc, d: Doc, m: Doc)
    requires Situation(rows, a, b, c, d, m)
    ensures Opposition(AsWritten, rows + [m], [a, b, c, d]) == [b, c, d]
  {
    var more := rows + [m];
    SituationReceipts(rows, a, b, c, d, m);
    SituationTexts(rows, a, b, c, d, m);
    AllFirst(more);
    ReceiptsAre(more);
    assert m in more;
    Untaken(rows, m, b);
    Untaken(rows, m, c);
    Untaken(rows, m, d);
    OutsideDropsFirst(Receipts(more), a, b, c, d);
    AllFirst([b, c, d]);
    AllCount(Texts(AsWritten, more), [b, c, d]);
  }

  lemma ContestedAfter(rows: seq<Doc>, a: Doc, b: Doc, c: Doc, d: Doc, m: Doc)
    requires Situation(rows, a, b, c, d, m)
    ensures Judged(AsWritten, AllVoices, MIN_RECEIPTS, MIN_CHANNELS_FOR_FINDING, rows + [m], [a, b, c, d]) == Contested
  {
    SituationReceipts(rows, a, b, c, d, m);
    SituationTexts(rows, a, b, c, d, m);
    EnoughVoices(rows + [m], rows[0], rows[1]);
    OppositionAfter(rows, a, b, c, d, m);
    TwoChannels([b, c, d], b, c);
  }

  lemma OutsideDropsFirst(seen: set<string>, a: Doc, b: Doc, c: Doc, d: Doc)
    requires a.receiptId in seen && b.receiptId !in seen && c.receiptId !in seen && d.receiptId !in seen
    ensures Outside(seen, [a, b, c, d]) == [b, c, d]
  {
    assert [] + [a] == [a] && [a] + [b] == [a, b] && [a, b] + [c] == [a, b, c] && [a, b, c] + [d] == [a, b, c, d];
    NextOutside(seen, [], a);
    NextOutside(seen, [a], b);
    NextOutside(seen, [a, b], c);
    NextOutside(seen, [a, b, c], d);
  }

  /** Rows that unmake a finding by supporting it. */
  predicate Unmade(records: seq<Doc>, more: seq<Doc>, refuting: seq<Doc>)
  {
    && Judged(AsWritten, AllVoices, MIN_RECEIPTS, MIN_CHANNELS_FOR_FINDING, records, refuting) == Finding
    && Judged(AsWritten, AllVoices, MIN_RECEIPTS, MIN_CHANNELS_FOR_FINDING, records + more, refuting) == Contested
    && !OneTextEach(AsWritten, records + more + refuting)
  }

  lemma SituationUnmakes(rows: seq<Doc>, a: Doc, b: Doc, c: Doc, d: Doc, m: Doc)
    requires Situation(rows, a, b, c, d, m)
    ensures Unmade(rows, [m], [a, b, c, d])
  {
    FindingBefore(rows, a, b, c, d, m);
    ContestedAfter(rows, a, b, c, d, m);
    DifferentTexts(rows, a, b, c, d, m);
  }

  /**
    Without one text a receipt, more support can unmake a finding: taking a receipt away from the other side
    uncovers a copy of its text from another channel, which meets the channel floor.
   */
  lemma SupportCanUnmakeAFinding() returns (records: seq<Doc>, more: seq<Doc>, refuting: seq<Doc>)
    ensures Unmade(records, more, refuting)
  {
    var a, b, c, d, m;
    records, a, b, c, d, m := Example();
    more, refuting := [m], [a, b, c, d];
    SituationUnmakes(records, a, b, c, d, m);
  }

  lemma DifferentTexts(rows: seq<Doc>, a: Doc, b: Doc, c: Doc, d: Doc, m: Doc)
    requires Situation(rows, a, b, c, d, m)
    ensures !OneTextEach(AsWritten, rows + [m] + [a, b, c, d])
  {
    var all := rows + [m] + [a, b, c, d];
    assert all[3] == m && all[4] == a && m in all && a in all;
    SituationTexts(rows, a, b, c, d, m);
    assert m in rows + [m];
  }

  lemma Example() returns (rows: seq<Doc>, a: Doc, b: Doc, c: Doc, d: Doc, m: Doc)
    ensures Situation(rows, a, b, c, d, m)
  {
    rows := [Row("1", "x", "one"), Row("2", "y", "two"), Row("3", "x", "three")];
    a, b := Row("a", "x", "fine"), Row("b", "y", "fine");
    c, d, m := Row("c", "x", "good"), Row("d", "x", "great"), Row("a", "x", "four");
    DifferentChannels("x", "y");
    assert rows + [a, b, c, d] == [rows[0], rows[1], rows[2], a, b, c, d];
    assert rows + [m, a, c, d] == [rows[0], rows[1], rows[2], m, a, c, d];
  }

  lemma DifferentChannels(x: string, y: string)
    requires x != y
    ensures forall i, s, j, t :: ChannelKey(Row(i, x, s)) != ChannelKey(Row(j, y, t))
  {
    forall i, s, j, t ensures ChannelKey(Row(i, x, s)) != ChannelKey(Row(j, y, t)) {
      ChannelKeyIsThePair(Row(i, x, s), Row(j, y, t));
    }
  }
}
