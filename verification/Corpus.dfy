/** Corpus rows, as the counting and reporting modules see them. */
module Corpus {
  import opened Basics

  /**
    A row: which utterance it is a copy of (`receiptId`), where it was said, and what was said. The
    same receipt can be on several rows. A source id is one of a fixed list of words, none with a slash.
   */
  datatype Doc = Doc(receiptId: string, source: string, channel: string, kind: string, text: string, score: int)

  predicate KnownSources(records: seq<Doc>) { forall d :: d in records ==> '/' !in d.source }

  /** The first row of every receipt, in order. */
  function FirstRows(records: seq<Doc>): seq<Doc>
  {
    if records == [] then []
    else
      var rest := FirstRows(records[..|records| - 1]);
      var last := records[|records| - 1];
      if exists d :: d in rest && d.receiptId == last.receiptId then rest else rest + [last]
  }

  predicate DistinctReceipts(records: seq<Doc>)
  {
    forall i, j :: 0 <= i < j < |records| ==> records[i].receiptId != records[j].receiptId
  }

  lemma {:induction false} FirstRowsAreRows(records: seq<Doc>)
    ensures DistinctReceipts(FirstRows(records))
    ensures forall d :: d in FirstRows(records) ==> d in records
  {
    if records != [] {
      FirstRowsAreRows(records[..|records| - 1]);
    }
  }

  lemma {:induction false} AllFirst(rows: seq<Doc>)
    requires DistinctReceipts(rows)
    ensures FirstRows(rows) == rows
  {
    if rows != [] {
      AllFirst(rows[..|rows| - 1]);
      assert rows == rows[..|rows| - 1] + [rows[|rows| - 1]];
    }
  }

  /** Where a receipt occurs for the first time. */
  function FirstPlaces(records: seq<Doc>): set<nat>
  {
    set i: nat | i < |records| && forall j :: 0 <= j < i ==> records[j].receiptId != records[i].receiptId
  }

  lemma LastPlace(front: seq<Doc>, last: Doc)
    ensures |front| in FirstPlaces(front + [last]) <==> last.receiptId !in Receipts(front)
    ensures forall i :: 0 <= i < |front| ==> (i in FirstPlaces(front) <==> i in FirstPlaces(front + [last]))
  {
    var records := front + [last];
    assert forall i :: 0 <= i < |front| ==> records[i] == front[i];
    ReceiptsAre(front);
    if last.receiptId in Receipts(front) {
      var d :| d in front && d.receiptId == last.receiptId;
      var j :| 0 <= j < |front| && front[j] == d;
      assert records[j].receiptId == records[|front|].receiptId;
    }
  }

  /** The rows kept are those at these places, in order. */
  lemma {:induction false} FirstRowsExactly(records: seq<Doc>)
    ensures FirstRows(records) == Pick(records, FirstPlaces(records))
  {
    if records != [] {
      var front, last := records[..|records| - 1], records[|records| - 1];
      assert records == front + [last];
      FirstRowsExactly(front);
      LastPlace(front, last);
      PickAgrees(front, FirstPlaces(front), FirstPlaces(records));
      ReceiptsOfFirst(front);
      NextRow(front, last);
    }
  }

  lemma {:induction false} ReceiptsOfFirst(records: seq<Doc>)
    ensures Receipts(FirstRows(records)) == Receipts(records)
  {
    if records != [] {
      var front, last := records[..|records| - 1], records[|records| - 1];
      ReceiptsOfFirst(front);
      assert records == front + [last];
      NextRow(front, last);
    }
  }

  /** Every receipt keeps a row. */
  lemma {:induction false} EveryReceiptHasARow(records: seq<Doc>, d: Doc)
    requires d in records
    ensures exists f :: f in FirstRows(records) && f.receiptId == d.receiptId
  {
    var front, last := records[..|records| - 1], records[|records| - 1];
    assert records == front + [last];
    if d in front {
      EveryReceiptHasARow(front, d);
      var f :| f in FirstRows(front) && f.receiptId == d.receiptId;
      assert f in FirstRows(records);
    } else if !(exists f :: f in FirstRows(front) && f.receiptId == last.receiptId) {
      assert FirstRows(records)[|FirstRows(front)|] == last;
    }
  }

  function Receipts(records: seq<Doc>): set<string>
  {
    if records == [] then {} else Receipts(records[..|records| - 1]) + {records[|records| - 1].receiptId}
  }

  lemma {:induction false} ReceiptsAre(records: seq<Doc>)
    ensures forall id :: id in Receipts(records) <==> exists d :: d in records && d.receiptId == id
  {
    if records != [] {
      var front, last := records[..|records| - 1], records[|records| - 1];
      ReceiptsAre(front);
      assert records == front + [last];
      assert last in records;
    }
  }

  lemma NextRow(records: seq<Doc>, d: Doc)
    ensures FirstRows(records + [d])
         == if d.receiptId in Receipts(FirstRows(records)) then FirstRows(records) else FirstRows(records) + [d]
    ensures Receipts(FirstRows(records + [d])) == Receipts(FirstRows(records)) + {d.receiptId}
  {
    var first := FirstRows(records);
    assert (records + [d])[..|records|] == records;
    assert (first + [d])[..|first|] == first;
    ReceiptsAre(first);
  }

  method UniqueRows(records: seq<Doc>) returns (unique: seq<Doc>)
    ensures unique == FirstRows(records)
  {
    unique := [];
    var seen: set<string> := {};
    for i := 0 to |records|
      invariant unique == FirstRows(records[..i]) && seen == Receipts(unique)
    {
      var record := records[i];
      assert records[..i + 1] == records[..i] + [record];
      NextRow(records[..i], record);
      if record.receiptId !in seen {
        seen := seen + {record.receiptId};
        unique := unique + [record];
      }
    }
    assert records[..|records|] == records;
  }

  /** The bucket a row's channel counts as. */
  function ChannelKey(d: Doc): string { d.source + "/" + d.channel }

  lemma SlashIsAfter(a: string, b: string, c: string, d: string)
    requires '/' !in c && a + "/" + b == c + "/" + d
    ensures |a| >= |c|
  {
    var k := a + "/" + b;
    assert k[|a|] == '/';
    forall i | 0 <= i < |c| ensures k[i] != '/' {
      assert k[i] == c[i];
    }
  }

  lemma ChannelKeyIsThePair(d: Doc, e: Doc)
    requires '/' !in d.source && '/' !in e.source
    ensures ChannelKey(d) == ChannelKey(e) <==> d.source == e.source && d.channel == e.channel
  {
    var k := ChannelKey(d);
    assert k[..|d.source|] == d.source && k[|d.source| + 1..] == d.channel;
    if k == ChannelKey(e) {
      SlashIsAfter(d.source, d.channel, e.source, e.channel);
      SlashIsAfter(e.source, e.channel, d.source, d.channel);
      assert k[..|e.source|] == e.source && k[|e.source| + 1..] == e.channel;
    }
  }
}
