/** What the verdict, its basis and the published counts are, said of the rows themselves. */
module CorroborateVerdicts {
  import opened Basics
  import opened Corpus
  import opened Corroborate

  // ---- Which rows count ----

  /** Without a text, or the first with its text, the text not being taken. */
  predicate CountsAt(key: TextKey, taken: set<string>, rows: seq<Doc>, i: nat)
    requires i < |rows|
  {
    key(rows[i].text) == ""
    || (key(rows[i].text) !in taken && forall j :: 0 <= j < i ==> key(rows[j].text) != key(rows[i].text))
  }

  function CountedPlaces(key: TextKey, taken: set<string>, rows: seq<Doc>): set<nat>
  {
    set i: nat | i < |rows| && CountsAt(key, taken, rows, i)
  }

  lemma TextHeard(key: TextKey, rows: seq<Doc>, text: string)
    requires text != ""
    ensures text in Texts(key, rows) <==> exists j :: 0 <= j < |rows| && key(rows[j].text) == text
  {
    TextsAre(key, rows);
    if text in Texts(key, rows) {
      var d :| d in rows && text in TextOf(key, d);
      var j :| 0 <= j < |rows| && rows[j] == d;
      assert key(rows[j].text) == text;
    }
    if j :| 0 <= j < |rows| && key(rows[j].text) == text {
      assert rows[j] in rows && text in TextOf(key, rows[j]);
    }
  }

  lemma LastCounts(key: TextKey, taken: set<string>, front: seq<Doc>, last: Doc)
    ensures |front| in CountedPlaces(key, taken, front + [last]) <==> !Repeats(key, taken + Texts(key, front), last)
  {
    var rows := front + [last];
    assert forall j :: 0 <= j < |front| ==> rows[j] == front[j];
    assert |front| in CountedPlaces(key, taken, rows) <==> CountsAt(key, taken, rows, |front|);
    if key(last.text) != "" {
      TextHeard(key, front, key(last.text));
    }
  }

  lemma FrontCounts(key: TextKey, taken: set<string>, front: seq<Doc>, last: Doc)
    ensures forall i :: 0 <= i < |front| ==>
              (i in CountedPlaces(key, taken, front) <==> i in CountedPlaces(key, taken, front + [last]))
  {
    var rows := front + [last];
    assert forall j :: 0 <= j < |front| ==> rows[j] == front[j];
    forall i | 0 <= i < |front| ensures CountsAt(key, taken, front, i) <==> CountsAt(key, taken, rows, i) {
    }
  }

  /** The rows that count are those at these places, in order. */
  lemma {:induction false} CountedExactly(key: TextKey, taken: set<string>, rows: seq<Doc>)
    ensures Counted(key, taken, rows) == Pick(rows, CountedPlaces(key, taken, rows))
  {
    if rows != [] {
      var front, last := rows[..|rows| - 1], rows[|rows| - 1];
      assert rows == front + [last];
      CountedExactly(key, taken, front);
      LastCounts(key, taken, front, last);
      FrontCounts(key, taken, front, last);
      PickAgrees(front, CountedPlaces(key, taken, front), CountedPlaces(key, taken, rows));
      NextCounted(key, taken, front, last);
    }
  }

  /** The opposing rows are those whose receipt does not support, the first of each receipt. */
  lemma {:induction false} OutsideExactly(receipts: set<string>, rows: seq<Doc>)
    ensures Outside(receipts, rows) == Pick(rows, set i: nat | i < |rows| && rows[i].receiptId !in receipts)
  {
    if rows != [] {
      var front := rows[..|rows| - 1];
      OutsideExactly(receipts, front);
      PickAgrees(front, set i: nat | i < |front| && front[i].receiptId !in receipts,
                 set i: nat | i < |rows| && rows[i].receiptId !in receipts);
    }
  }

  // ---- Tiers ----

  function OfTier(tierOf: TierOf, t: Tier, rows: seq<Doc>): set<nat>
  {
    set i: nat | i < |rows| && tierOf(rows[i].source) == t
  }

  function IsOf(tierOf: TierOf, t: Tier): Doc -> bool { (d: Doc) => tierOf(d.source) == t }

  lemma {:induction false} TierPlaces(tierOf: TierOf, t: Tier, rows: seq<Doc>)
    ensures TierCount(tierOf, t, rows) == |Places(IsOf(tierOf, t), rows)|
  {
    if rows == [] {
      NoPlaces(IsOf(tierOf, t));
    } else {
      var front, last := rows[..|rows| - 1], rows[|rows| - 1];
      TierPlaces(tierOf, t, front);
      OneMorePlace(IsOf(tierOf, t), front, last);
      assert rows == front + [last];
    }
  }

  /** A tier's count is the number of rows of that tier. */
  lemma TierCountExactly(tierOf: TierOf, t: Tier, rows: seq<Doc>)
    ensures TierCount(tierOf, t, rows) == |OfTier(tierOf, t, rows)|
  {
    TierPlaces(tierOf, t, rows);
    assert OfTier(tierOf, t, rows) == Places(IsOf(tierOf, t), rows);
  }

  function Promoting(tierOf: TierOf, rows: seq<Doc>): set<nat>
  {
    set i: nat | i < |rows| && tierOf(rows[i].source) != D
  }

  lemma PromotingAddsUp(tierOf: TierOf, rows: seq<Doc>)
    ensures |Promoting(tierOf, rows)|
         == TierCount(tierOf, A, rows) + TierCount(tierOf, B, rows) + TierCount(tierOf, C, rows)
  {
    var a, b, c := OfTier(tierOf, A, rows), OfTier(tierOf, B, rows), OfTier(tierOf, C, rows);
    TierCountExactly(tierOf, A, rows);
    TierCountExactly(tierOf, B, rows);
    TierCountExactly(tierOf, C, rows);
    assert Promoting(tierOf, rows) == (a + b) + c;
    assert a !! b && (a + b) !! c;
  }

  /** Two rows of different tiers among those that promote. */
  predicate TwoTiers(tierOf: TierOf, rows: seq<Doc>)
  {
    exists d, e :: d in rows && e in rows && tierOf(d.source) != tierOf(e.source)
                   && tierOf(d.source) != D && tierOf(e.source) != D
  }

  /** Two rows of the first tier. */
  predicate TwoOfFirst(tierOf: TierOf, rows: seq<Doc>)
  {
    exists i, j :: 0 <= i < j < |rows| && tierOf(rows[i].source) == A && tierOf(rows[j].source) == A
  }

  lemma PresentExactly(tierOf: TierOf, t: Tier, rows: seq<Doc>)
    ensures TierCount(tierOf, t, rows) > 0 <==> exists d :: d in rows && tierOf(d.source) == t
  {
    TierCountExactly(tierOf, t, rows);
    if TierCount(tierOf, t, rows) > 0 {
      var i :| i in OfTier(tierOf, t, rows);
      assert rows[i] in rows;
    }
    if d :| d in rows && tierOf(d.source) == t {
      var i :| 0 <= i < |rows| && rows[i] == d;
      assert i in OfTier(tierOf, t, rows);
    }
  }

  lemma TwoTiersExactly(tierOf: TierOf, rows: seq<Doc>)
    ensures TwoTiers(tierOf, rows)
       <==> || (TierCount(tierOf, A, rows) > 0 && TierCount(tierOf, B, rows) > 0)
            || (TierCount(tierOf, A, rows) > 0 && TierCount(tierOf, C, rows) > 0)
            || (TierCount(tierOf, B, rows) > 0 && TierCount(tierOf, C, rows) > 0)
  {
    PresentExactly(tierOf, A, rows);
    PresentExactly(tierOf, B, rows);
    PresentExactly(tierOf, C, rows);
  }

  lemma TwoPlaces(places: set<nat>) returns (i: nat, j: nat)
    requires |places| >= 2
    ensures i < j && i in places && j in places
  {
    var x :| x in places;
    assert |places - {x}| >= 1;
    var y :| y in places - {x};
    i, j := Min(x, y), Max(x, y);
  }

  lemma TwoOfFirstExactly(tierOf: TierOf, rows: seq<Doc>)
    ensures TwoOfFirst(tierOf, rows) <==> TierCount(tierOf, A, rows) >= 2
  {
    var first := OfTier(tierOf, A, rows);
    TierCountExactly(tierOf, A, rows);
    if TwoOfFirst(tierOf, rows) {
      var i, j :| 0 <= i < j < |rows| && tierOf(rows[i].source) == A && tierOf(rows[j].source) == A;
      SmallerSet({i, j}, first);
    }
    if |first| >= 2 {
      var i, j := TwoPlaces(first);
    }
  }

  /** Why a claim is supported: enough receipts, else two kinds of source, else two records nobody makes casually. */
  lemma BasisExactly(threshold: int, tierOf: TierOf, rows: seq<Doc>)
    ensures BasisOf(threshold, TiersOf(tierOf, rows))
         == if |Promoting(tierOf, rows)| >= threshold then ReceiptCount
            else if TwoTiers(tierOf, rows) then CrossTier
            else if TwoOfFirst(tierOf, rows) then Attested
            else NoBasis
  {
    PromotingAddsUp(tierOf, rows);
    TwoTiersExactly(tierOf, rows);
    TwoOfFirstExactly(tierOf, rows);
  }

  // ---- The verdict ----

  function ChannelsOf(rows: seq<Doc>): set<(string, string)> { set d | d in rows :: (d.source, d.channel) }

  lemma ChannelsOneMore(front: seq<Doc>, last: Doc)
    ensures ChannelsOf(front + [last]) == ChannelsOf(front) + {(last.source, last.channel)}
    ensures ChannelKeys(front + [last]) == ChannelKeys(front) + {ChannelKey(last)}
  {
    assert (front + [last])[..|front|] == front;
    assert forall d :: d in front + [last] <==> d in front || d == last;
  }

  lemma OneMoreChannel(front: seq<Doc>, last: Doc)
    requires KnownSources(front) && '/' !in last.source && |ChannelKeys(front)| == |ChannelsOf(front)|
    ensures |ChannelKeys(front + [last])| == |ChannelsOf(front + [last])|
  {
    ChannelsOneMore(front, last);
    SameChannelInFront(front, last);
  }

  lemma {:induction false} ChannelsCounted(rows: seq<Doc>)
    requires KnownSources(rows)
    ensures |ChannelKeys(rows)| == |ChannelsOf(rows)|
  {
    if rows == [] {
      assert ChannelsOf(rows) == {};
    } else {
      var front, last := rows[..|rows| - 1], rows[|rows| - 1];
      assert last in rows && forall d :: d in front ==> d in rows;
      ChannelsCounted(front);
      OneMoreChannel(front, last);
      assert rows == front + [last];
    }
  }

  lemma SameChannelInFront(front: seq<Doc>, last: Doc)
    requires KnownSources(front) && '/' !in last.source
    ensures ChannelKey(last) in ChannelKeys(front) <==> (last.source, last.channel) in ChannelsOf(front)
  {
    ChannelKeysAre(front);
    forall d | d in front
      ensures ChannelKey(d) == ChannelKey(last) <==> d.source == last.source && d.channel == last.channel
    {
      ChannelKeyIsThePair(d, last);
    }
  }

  predicate Stands(tierOf: TierOf, threshold: int, floor: int, rows: seq<Doc>)
  {
    |ChannelsOf(rows)| >= floor
    && (|Promoting(tierOf, rows)| >= threshold || TwoTiers(tierOf, rows) || TwoOfFirst(tierOf, rows))
  }

  predicate Opposed(threshold: int, floor: int, rows: seq<Doc>)
  {
    |rows| >= threshold && |ChannelsOf(rows)| >= floor
  }

  lemma CountedKnown(key: TextKey, taken: set<string>, rows: seq<Doc>)
    requires KnownSources(rows)
    ensures KnownSources(Counted(key, taken, rows))
  {
    CountedAreRows(key, taken, rows);
  }

  lemma SidesKnown(key: TextKey, records: seq<Doc>, refuting: seq<Doc>)
    requires KnownSources(records) && KnownSources(refuting)
    ensures KnownSources(Support(key, records)) && KnownSources(Opposition(key, records, refuting))
  {
    var seen := Receipts(FirstRows(records));
    FirstRowsAreRows(records);
    CountedKnown(key, {}, FirstRows(records));
    OutsideIsOutside(seen, refuting);
    FirstRowsAreRows(Outside(seen, refuting));
    CountedKnown(key, Texts(key, FirstRows(records)), Opponents(records, refuting));
  }

  /**
    The verdict, said of the rows that count: the claim stands on enough promoting rows, two kinds of source or
    two records of the first tier, from enough channels; and it is opposed by enough rows from enough channels.
   */
  lemma VerdictExactly(
      key: TextKey, tierOf: TierOf, threshold: int, floor: int, records: seq<Doc>, refuting: seq<Doc>)
    requires KnownSources(records) && KnownSources(refuting)
    ensures var stands := Stands(tierOf, threshold, floor, Support(key, records));
            var opposed := Opposed(threshold, floor, Opposition(key, records, refuting));
            Judged(key, tierOf, threshold, floor, records, refuting)
            == if stands && opposed then Contested else if stands then Finding else if opposed then Refuted
               else WeakSignal
  {
    SidesKnown(key, records, refuting);
    ChannelsCounted(Support(key, records));
    ChannelsCounted(Opposition(key, records, refuting));
    BasisExactly(threshold, tierOf, Support(key, records));
  }

  // ---- The published list of sources ----

  lemma {:induction false} InSourceCounts(s: string, rows: seq<Doc>)
    ensures |InSource(s, rows)| == |Places((d: Doc) => d.source == s, rows)|
  {
    var p := (d: Doc) => d.source == s;
    if rows == [] {
      NoPlaces(p);
    } else {
      var front, last := rows[..|rows| - 1], rows[|rows| - 1];
      InSourceCounts(s, front);
      OneMorePlace(p, front, last);
      assert rows == front + [last];
    }
  }

  lemma {:induction false} InSourceDistinct(s: string, rows: seq<Doc>)
    requires DistinctReceipts(rows)
    ensures DistinctReceipts(InSource(s, rows))
  {
    if rows != [] {
      InSourceDistinct(s, rows[..|rows| - 1]);
      InSourceIsInSource(s, rows[..|rows| - 1]);
    }
  }

  /** A source's entry: how many of the rows that count are its own, and from how many of its channels. */
  lemma EntryExactly(s: string, rows: seq<Doc>)
    requires DistinctReceipts(rows)
    ensures SpreadOf(s, rows).records == |set i: nat | i < |rows| && rows[i].source == s|
    ensures SpreadOf(s, rows).channels == |set d | d in rows && d.source == s :: d.channel|
  {
    InSourceDistinct(s, rows);
    ReceiptsOfDistinct(InSource(s, rows));
    InSourceCounts(s, rows);
    assert (set i: nat | i < |rows| && rows[i].source == s) == Places((d: Doc) => d.source == s, rows);
    InSourceIsInSource(s, rows);
    ChannelNamesAre(InSource(s, rows));
    assert ChannelNames(InSource(s, rows)) == set d | d in rows && d.source == s :: d.channel;
  }
}
