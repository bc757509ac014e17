/**
  When a finding survives every further supporting row. Support for a receipt silences that receipt on the
  other side, and may uncover a copy of its text from another channel; so what matters is not only which
  opposing rows count, but which could.
 */
module CorroborateExact {
  import opened Basics
  import opened Corpus
  import opened Corroborate

  /** Opposing rows whose text no supporting row has, repeats among themselves included. */
  function Fresh(key: TextKey, taken: set<string>, rows: seq<Doc>): seq<Doc>
  {
    if rows == [] then []
    else
      var rest, last := Fresh(key, taken, rows[..|rows| - 1]), rows[|rows| - 1];
      if Repeats(key, taken, last) then rest else rest + [last]
  }

  /** With some receipts silenced, the opposing rows that count come from this many channels. */
  ghost predicate CouldReach(key: TextKey, taken: set<string>, opponents: seq<Doc>, floor: int)
  {
    exists drop: set<string> :: ReachesWithout(key, taken, opponents, floor, drop)
  }

  predicate ReachesWithout(key: TextKey, taken: set<string>, opponents: seq<Doc>, floor: int, drop: set<string>)
  {
    |ChannelKeys(Counted(key, taken, Outside(drop, opponents)))| >= floor
  }

  // ---- Counting, row by row ----

  lemma {:induction false} FreshIsFresh(key: TextKey, taken: set<string>, rows: seq<Doc>)
    ensures forall d :: d in Fresh(key, taken, rows) <==> d in rows && !Repeats(key, taken, d)
  {
    if rows != [] {
      FreshIsFresh(key, taken, rows[..|rows| - 1]);
      assert rows == rows[..|rows| - 1] + [rows[|rows| - 1]];
    }
  }

  /** A row whose text is its own and not taken counts. */
  lemma {:induction false} OwnTextCounts(key: TextKey, taken: set<string>, rows: seq<Doc>, d: Doc)
    requires d in rows && !Repeats(key, taken, d)
    requires forall e :: e in rows && e != d ==> TextOf(key, e) !! TextOf(key, d)
    ensures d in Counted(key, taken, rows)
  {
    var front, last := rows[..|rows| - 1], rows[|rows| - 1];
    assert rows == front + [last];
    NextCounted(key, taken, front, last);
    if d in front {
      OwnTextCounts(key, taken, front, d);
    } else {
      TextsAre(key, front);
      forall e | e in front ensures TextOf(key, e) !! TextOf(key, d) {
        assert e in rows;
      }
    }
  }

  /** A text counts once. */
  lemma {:induction false} OneRowPerText(key: TextKey, taken: set<string>, rows: seq<Doc>, d: Doc, e: Doc)
    requires d in Counted(key, taken, rows) && e in Counted(key, taken, rows) && d != e
    ensures TextOf(key, d) !! TextOf(key, e)
  {
    var front, last := rows[..|rows| - 1], rows[|rows| - 1];
    assert rows == front + [last];
    NextCounted(key, taken, front, last);
    var rest := Counted(key, taken, front);
    if d in rest && e in rest {
      OneRowPerText(key, taken, front, d, e);
    } else {
      CountedAreRows(key, taken, front);
      TextsAre(key, front);
      var other := if d in rest then d else e;
      assert other in front && TextOf(key, other) <= Texts(key, front);
    }
  }

  /** Every text that is not taken is counted. */
  lemma {:induction false} CountedHaveTheTexts(key: TextKey, taken: set<string>, rows: seq<Doc>)
    ensures Texts(key, Counted(key, taken, rows)) == Texts(key, rows) - taken
  {
    if rows != [] {
      var front, last := rows[..|rows| - 1], rows[|rows| - 1];
      assert rows == front + [last];
      CountedHaveTheTexts(key, taken, front);
      NextCounted(key, taken, front, last);
      NextCounted(key, taken, Counted(key, taken, front), last);
    }
  }

  lemma {:induction false} TextlessOutside(key: TextKey, drop: set<string>, rows: seq<Doc>)
    ensures Textless(key, Outside(drop, rows)) <= Textless(key, rows)
    ensures (forall d :: d in rows && key(d.text) == "" ==> d.receiptId !in drop)
        ==> Textless(key, Outside(drop, rows)) == Textless(key, rows)
  {
    if rows != [] {
      var front, last := rows[..|rows| - 1], rows[|rows| - 1];
      assert rows == front + [last];
      TextlessOutside(key, drop, front);
      assert (Outside(drop, front) + [last])[..|Outside(drop, front)|] == Outside(drop, front);
    }
  }

  lemma SameReceiptSameRow(rows: seq<Doc>, d: Doc, e: Doc)
    requires DistinctReceipts(rows) && d in rows && e in rows && d.receiptId == e.receiptId
    ensures d == e
  {
    var i :| 0 <= i < |rows| && rows[i] == d;
    var j :| 0 <= j < |rows| && rows[j] == e;
    assert !(i < j) && !(j < i);
  }

  // ---- What more support does to the other side ----

  lemma {:induction false} OutsideAgrees(s: set<string>, t: set<string>, rows: seq<Doc>)
    requires forall d :: d in rows ==> (d.receiptId in s <==> d.receiptId in t)
    ensures Outside(s, rows) == Outside(t, rows)
  {
    if rows != [] {
      assert rows[|rows| - 1] in rows;
      OutsideAgrees(s, t, rows[..|rows| - 1]);
    }
  }

  /** Leaving out more receipts and keeping first rows can be done in either order. */
  lemma {:induction false} FirstRowsOutside(s: set<string>, s': set<string>, rows: seq<Doc>)
    requires s <= s'
    ensures FirstRows(Outside(s', rows)) == Outside(s', FirstRows(Outside(s, rows)))
  {
    if rows != [] {
      var front, last := rows[..|rows| - 1], rows[|rows| - 1];
      assert rows == front + [last];
      FirstRowsOutside(s, s', front);
      NextOutside(s, front, last);
      NextOutside(s', front, last);
      if last.receiptId !in s {
        NextRow(Outside(s, front), last);
        NextOutside(s', FirstRows(Outside(s, front)), last);
      }
      if last.receiptId !in s' {
        NextRow(Outside(s', front), last);
        SameReceiptsOutside(s, s', front, last.receiptId);
      }
    }
  }

  lemma OpponentsOfMore(records: seq<Doc>, more: seq<Doc>, refuting: seq<Doc>)
    ensures Opponents(records + more, refuting)
         == Outside(Receipts(FirstRows(records + more)), Opponents(records, refuting))
  {
    var first, first' := FirstRows(records), FirstRows(records + more);
    FirstRowsGrow(records, more);
    PrefixMembers(first, first');
    ReceiptsAre(first);
    ReceiptsAre(first');
    FirstRowsOutside(Receipts(first), Receipts(first'), refuting);
  }

  lemma OpponentsDistinct(records: seq<Doc>, refuting: seq<Doc>)
    ensures DistinctReceipts(Opponents(records, refuting))
  {
    FirstRowsAreRows(Outside(Receipts(FirstRows(records)), refuting));
  }

  /** Fewer rows against more taken texts: never more voices. */
  lemma NeverMoreVoices(key: TextKey, taken: set<string>, taken': set<string>, drop: set<string>, rows: seq<Doc>)
    requires taken <= taken'
    ensures |Counted(key, taken', Outside(drop, rows))| <= |Counted(key, taken, rows)|
  {
    var left := Outside(drop, rows);
    CountedAreVoices(key, taken', left);
    CountedAreVoices(key, taken, rows);
    TextlessOutside(key, drop, rows);
    OutsideIsOutside(drop, rows);
    TextsAre(key, left);
    TextsAre(key, rows);
    SmallerSet(Texts(key, left) - taken', Texts(key, rows) - taken);
  }

  /** And whatever counts after more support would count among some of the rows before. */
  lemma CountedBefore(
      key: TextKey, taken: set<string>, taken': set<string>, drop': set<string>, rows: seq<Doc>)
    returns (drop: set<string>)
    requires taken <= taken' && DistinctReceipts(rows)
    ensures forall d :: d in Counted(key, taken', Outside(drop', rows))
              ==> d in Counted(key, taken, Outside(drop, rows))
  {
    var heard := Counted(key, taken', Outside(drop', rows));
    drop := Receipts(rows) - Receipts(heard);
    var left := Outside(drop, rows);
    CountedAreRows(key, taken', Outside(drop', rows));
    OutsideIsOutside(drop', rows);
    OutsideIsOutside(drop, rows);
    ReceiptsAre(heard);
    ReceiptsAre(rows);
    forall d | d in heard ensures d in Counted(key, taken, left) {
      assert d in rows && d.receiptId !in drop;
      forall e | e in left && e != d ensures TextOf(key, e) !! TextOf(key, d) {
        var f :| f in heard && f.receiptId == e.receiptId;
        SameReceiptSameRow(rows, e, f);
        OneRowPerText(key, taken', Outside(drop', rows), d, e);
      }
      OwnTextCounts(key, taken, left, d);
    }
  }

  // ---- Silencing receipts ----

  /** Supporting rows without text, one for each of these receipts. */
  function Silencing(drop: set<string>, rows: seq<Doc>): seq<Doc>
  {
    if rows == [] then []
    else
      var rest, last := Silencing(drop, rows[..|rows| - 1]), rows[|rows| - 1];
      if last.receiptId in drop then rest + [last.(text := "")] else rest
  }

  lemma {:induction false} SilencingSaysNothing(key: TextKey, drop: set<string>, rows: seq<Doc>)
    requires key("") == ""
    ensures Receipts(Silencing(drop, rows)) == Receipts(rows) * drop && Texts(key, Silencing(drop, rows)) == {}
  {
    if rows != [] {
      var front, last := rows[..|rows| - 1], rows[|rows| - 1];
      var rest, mute := Silencing(drop, front), last.(text := "");
      SilencingSaysNothing(key, drop, front);
      NextCounted(key, {}, rest, mute);
    }
  }

  lemma {:induction false} ReceiptsOfMore(records: seq<Doc>, more: seq<Doc>)
    ensures Receipts(FirstRows(records + more)) == Receipts(FirstRows(records)) + Receipts(more)
  {
    if more == [] {
      assert records + more == records;
    } else {
      var front, last := more[..|more| - 1], more[|more| - 1];
      assert more == front + [last];
      Associative(records, front, [last]);
      ReceiptsOfMore(records, front);
      NextRow(records + front, last);
    }
  }

  lemma NextRowWithoutText(key: TextKey, records: seq<Doc>, d: Doc)
    requires TextOf(key, d) == {}
    ensures Texts(key, FirstRows(records + [d])) == Texts(key, FirstRows(records))
  {
    NextRow(records, d);
    NextCounted(key, {}, FirstRows(records), d);
  }

  /** Supporting rows without text take nothing. */
  lemma {:induction false} SupportWithoutText(key: TextKey, records: seq<Doc>, more: seq<Doc>)
    requires Texts(key, more) == {}
    ensures Texts(key, FirstRows(records + more)) == Texts(key, FirstRows(records))
  {
    if more == [] {
      assert records + more == records;
    } else {
      var front, last := more[..|more| - 1], more[|more| - 1];
      assert more == front + [last];
      Associative(records, front, [last]);
      SupportWithoutText(key, records, front);
      NextRowWithoutText(key, records + front, last);
    }
  }

  /** Any of the opposing receipts can be silenced, and nothing else. */
  lemma Silenced(key: TextKey, records: seq<Doc>, refuting: seq<Doc>, drop: set<string>)
    requires key("") == ""
    ensures var opponents := Opponents(records, refuting);
            Opposition(key, records + Silencing(drop, opponents), refuting)
            == Counted(key, Texts(key, FirstRows(records)), Outside(drop, opponents))
  {
    var opponents := Opponents(records, refuting);
    var more := Silencing(drop, opponents);
    SilencingSaysNothing(key, drop, opponents);
    ReceiptsOfMore(records, more);
    SupportWithoutText(key, records, more);
    OpponentsOfMore(records, more, refuting);
    var seen' := Receipts(FirstRows(records + more));
    forall d | d in opponents ensures d.receiptId in seen' <==> d.receiptId in drop {
      OpponentsAreOutside(records, refuting, d);
      ReceiptsAre(opponents);
    }
    OutsideAgrees(seen', drop, opponents);
  }

  // ---- Keeping a row for every text ----

  /** The rows to keep: those that count with `drop` silenced, and one for every text these leave out. */
  function Kept(key: TextKey, taken: set<string>, rows: seq<Doc>, drop: set<string>): set<string>
  {
    var pick := Counted(key, taken, Outside(drop, rows));
    Receipts(pick) + Receipts(Counted(key, taken + Texts(key, pick), rows))
  }

  lemma KeptRows(key: TextKey, taken: set<string>, rows: seq<Doc>, drop: set<string>, d: Doc)
    requires DistinctReceipts(rows) && d in rows && d.receiptId in Kept(key, taken, rows, drop)
    ensures var pick := Counted(key, taken, Outside(drop, rows));
            && (d in pick || d in Counted(key, taken + Texts(key, pick), rows))
            && !Repeats(key, taken, d)
  {
    var pick := Counted(key, taken, Outside(drop, rows));
    var rest := Counted(key, taken + Texts(key, pick), rows);
    CountedAreRows(key, taken, Outside(drop, rows));
    CountedAreRows(key, taken + Texts(key, pick), rows);
    OutsideIsOutside(drop, rows);
    ReceiptsAre(pick);
    ReceiptsAre(rest);
    var f :| (f in pick || f in rest) && f.receiptId == d.receiptId;
    SameReceiptSameRow(rows, d, f);
  }

  lemma KeptTextsApart(key: TextKey, taken: set<string>, rows: seq<Doc>, drop: set<string>, d: Doc, e: Doc)
    requires DistinctReceipts(rows) && d in rows && e in rows && d != e
    requires d.receiptId in Kept(key, taken, rows, drop) && e.receiptId in Kept(key, taken, rows, drop)
    ensures TextOf(key, d) !! TextOf(key, e)
  {
    var pick := Counted(key, taken, Outside(drop, rows));
    var rest := Counted(key, taken + Texts(key, pick), rows);
    KeptRows(key, taken, rows, drop, d);
    KeptRows(key, taken, rows, drop, e);
    if d in pick && e in pick {
      OneRowPerText(key, taken, Outside(drop, rows), d, e);
    } else if d in rest && e in rest {
      OneRowPerText(key, taken + Texts(key, pick), rows, d, e);
    } else {
      CountedAreRows(key, taken + Texts(key, pick), rows);
      TextsAre(key, pick);
      var p := if d in pick then d else e;
      assert TextOf(key, p) <= Texts(key, pick);
    }
  }

  lemma KeptAllCount(key: TextKey, taken: set<string>, rows: seq<Doc>, drop: set<string>, d: Doc)
    requires DistinctReceipts(rows) && d in rows && d.receiptId in Kept(key, taken, rows, drop)
    ensures d in Counted(key, taken, Outside(Receipts(rows) - Kept(key, taken, rows, drop), rows))
  {
    var kept := Kept(key, taken, rows, drop);
    var left := Outside(Receipts(rows) - kept, rows);
    OutsideIsOutside(Receipts(rows) - kept, rows);
    ReceiptsAre(rows);
    KeptRows(key, taken, rows, drop, d);
    forall e | e in left && e != d ensures TextOf(key, e) !! TextOf(key, d) {
      KeptTextsApart(key, taken, rows, drop, d, e);
    }
    OwnTextCounts(key, taken, left, d);
  }

  /** Nothing is lost in number. */
  lemma KeptAsMany(key: TextKey, taken: set<string>, rows: seq<Doc>, drop: set<string>)
    ensures var left := Outside(Receipts(rows) - Kept(key, taken, rows, drop), rows);
            |Counted(key, taken, left)| == |Counted(key, taken, rows)|
  {
    var pick := Counted(key, taken, Outside(drop, rows));
    var rest := Counted(key, taken + Texts(key, pick), rows);
    var kept := Kept(key, taken, rows, drop);
    var left := Outside(Receipts(rows) - kept, rows);
    NeverMoreVoices(key, taken, taken, Receipts(rows) - kept, rows);
    KeptTexts(key, taken, rows, drop);
    KeptTextless(key, taken, rows, drop);
    CountedAreVoices(key, taken, left);
    CountedAreVoices(key, taken, rows);
    SmallerSet(Texts(key, rows) - taken, Texts(key, left) - taken);
  }

  lemma KeptAreLeft(key: TextKey, taken: set<string>, rows: seq<Doc>, drop: set<string>, d: Doc)
    requires var pick := Counted(key, taken, Outside(drop, rows));
             d in pick || d in Counted(key, taken + Texts(key, pick), rows)
    ensures d in Outside(Receipts(rows) - Kept(key, taken, rows, drop), rows)
  {
    var pick := Counted(key, taken, Outside(drop, rows));
    CountedAreRows(key, taken, Outside(drop, rows));
    CountedAreRows(key, taken + Texts(key, pick), rows);
    OutsideIsOutside(drop, rows);
    OutsideIsOutside(Receipts(rows) - Kept(key, taken, rows, drop), rows);
    ReceiptsAre(pick);
    ReceiptsAre(Counted(key, taken + Texts(key, pick), rows));
  }

  lemma TextsWithin(key: TextKey, rows: seq<Doc>, others: seq<Doc>)
    requires forall d :: d in rows ==> d in others
    ensures Texts(key, rows) <= Texts(key, others)
  {
    TextsAre(key, rows);
    TextsAre(key, others);
  }

  lemma KeptTexts(key: TextKey, taken: set<string>, rows: seq<Doc>, drop: set<string>)
    ensures Texts(key, rows) - taken <= Texts(key, Outside(Receipts(rows) - Kept(key, taken, rows, drop), rows))
  {
    var pick := Counted(key, taken, Outside(drop, rows));
    var rest := Counted(key, taken + Texts(key, pick), rows);
    var left := Outside(Receipts(rows) - Kept(key, taken, rows, drop), rows);
    CountedHaveTheTexts(key, taken + Texts(key, pick), rows);
    forall d | d in pick || d in rest ensures d in left {
      KeptAreLeft(key, taken, rows, drop, d);
    }
    TextsWithin(key, pick, left);
    TextsWithin(key, rest, left);
  }

  lemma KeptTextless(key: TextKey, taken: set<string>, rows: seq<Doc>, drop: set<string>)
    ensures Textless(key, Outside(Receipts(rows) - Kept(key, taken, rows, drop), rows)) == Textless(key, rows)
  {
    var pick := Counted(key, taken, Outside(drop, rows));
    var rest := Counted(key, taken + Texts(key, pick), rows);
    ReceiptsAre(rest);
    forall d | d in rows && key(d.text) == "" ensures d.receiptId !in Receipts(rows) - Kept(key, taken, rows, drop) {
      OwnTextCounts(key, taken + Texts(key, pick), rows, d);
    }
    TextlessOutside(key, Receipts(rows) - Kept(key, taken, rows, drop), rows);
  }

  /** If some of the rows reach the floor, some do that are as many as all of them. */
  lemma ReachInFullNumber(key: TextKey, taken: set<string>, rows: seq<Doc>, floor: int, drop: set<string>)
    requires DistinctReceipts(rows) && ReachesWithout(key, taken, rows, floor, drop)
    ensures var all := Receipts(rows) - Kept(key, taken, rows, drop);
            && ReachesWithout(key, taken, rows, floor, all)
            && |Counted(key, taken, Outside(all, rows))| == |Counted(key, taken, rows)|
  {
    var pick := Counted(key, taken, Outside(drop, rows));
    var left := Counted(key, taken, Outside(Receipts(rows) - Kept(key, taken, rows, drop), rows));
    CountedAreRows(key, taken, Outside(drop, rows));
    OutsideIsOutside(drop, rows);
    ReceiptsAre(pick);
    forall d | d in pick ensures d in left {
      KeptAllCount(key, taken, rows, drop, d);
    }
    FewerChannels(pick, left);
    KeptAsMany(key, taken, rows, drop);
  }

  // ---- The theorem ----

  lemma MoreStaysShort(
      key: TextKey, threshold: int, floor: int, records: seq<Doc>, more: seq<Doc>, refuting: seq<Doc>)
    requires var taken := Texts(key, FirstRows(records));
             || |Opposition(key, records, refuting)| < threshold
             || !CouldReach(key, taken, Opponents(records, refuting), floor)
    ensures !IsRefuted(key, threshold, floor, records + more, refuting)
  {
    var first, first' := FirstRows(records), FirstRows(records + more);
    var rows := Opponents(records, refuting);
    FirstRowsGrow(records, more);
    PrefixMembers(first, first');
    TextsAre(key, first);
    TextsAre(key, first');
    OpponentsOfMore(records, more, refuting);
    OpponentsDistinct(records, refuting);
    NeverMoreVoices(key, Texts(key, first), Texts(key, first'), Receipts(first'), rows);
    var drop := CountedBefore(key, Texts(key, first), Texts(key, first'), Receipts(first'), rows);
    FewerChannels(Opposition(key, records + more, refuting), Counted(key, Texts(key, first), Outside(drop, rows)));
    assert ReachesWithout(key, Texts(key, first), rows, floor, drop)
        <==> |ChannelKeys(Counted(key, Texts(key, first), Outside(drop, rows)))| >= floor;
  }

  lemma SilencingRefutes(
      key: TextKey, threshold: int, floor: int, records: seq<Doc>, refuting: seq<Doc>) returns (more: seq<Doc>)
    requires key("") == "" && |Opposition(key, records, refuting)| >= threshold
    requires CouldReach(key, Texts(key, FirstRows(records)), Opponents(records, refuting), floor)
    ensures IsRefuted(key, threshold, floor, records + more, refuting)
  {
    var taken, rows := Texts(key, FirstRows(records)), Opponents(records, refuting);
    var drop :| ReachesWithout(key, taken, rows, floor, drop);
    OpponentsDistinct(records, refuting);
    ReachInFullNumber(key, taken, rows, floor, drop);
    var all := Receipts(rows) - Kept(key, taken, rows, drop);
    more := Silencing(all, rows);
    Silenced(key, records, refuting, all);
  }

  lemma FindingOfMore(
      key: TextKey, tierOf: TierOf, threshold: int, floor: int, records: seq<Doc>, more: seq<Doc>, refuting: seq<Doc>)
    requires Judged(key, tierOf, threshold, floor, records, refuting) == Finding
    requires || |Opposition(key, records, refuting)| < threshold
             || !CouldReach(key, Texts(key, FirstRows(records)), Opponents(records, refuting), floor)
    ensures Judged(key, tierOf, threshold, floor, records + more, refuting) == Finding
  {
    SupportOnlyGrows(key, tierOf, threshold, floor, records, more);
    MoreStaysShort(key, threshold, floor, records, more, refuting);
  }

  lemma FindingUnmade(
      key: TextKey, tierOf: TierOf, threshold: int, floor: int, records: seq<Doc>, refuting: seq<Doc>)
    returns (more: seq<Doc>)
    requires key("") == "" && |Opposition(key, records, refuting)| >= threshold
    requires CouldReach(key, Texts(key, FirstRows(records)), Opponents(records, refuting), floor)
    ensures Judged(key, tierOf, threshold, floor, records + more, refuting) != Finding
  {
    more := SilencingRefutes(key, threshold, floor, records, refuting);
  }

  /** A finding survives all further support exactly when too few opposing rows count, or none could reach. */
  lemma StaysUnlessReached(
      key: TextKey, tierOf: TierOf, threshold: int, floor: int, records: seq<Doc>, refuting: seq<Doc>)
    requires key("") == "" && Judged(key, tierOf, threshold, floor, records, refuting) == Finding
    ensures (forall more :: Judged(key, tierOf, threshold, floor, records + more, refuting) == Finding)
       <==> (|Opposition(key, records, refuting)| < threshold
             || !CouldReach(key, Texts(key, FirstRows(records)), Opponents(records, refuting), floor))
  {
    if |Opposition(key, records, refuting)| >= threshold
       && CouldReach(key, Texts(key, FirstRows(records)), Opponents(records, refuting), floor) {
      var more := FindingUnmade(key, tierOf, threshold, floor, records, refuting);
    } else {
      forall more ensures Judged(key, tierOf, threshold, floor, records + more, refuting) == Finding {
        FindingOfMore(key, tierOf, threshold, floor, records, more, refuting);
      }
    }
  }

  // ---- How far the other side could reach ----

  /** The most channels that rows with a text each of their own can come from, beside those already used. */
  function MostChannels(key: TextKey, texts: set<string>, channels: set<string>, rows: seq<Doc>): nat
    decreases rows
  {
    if rows == [] then 0
    else
      var front, last := rows[..|rows| - 1], rows[|rows| - 1];
      var without := MostChannels(key, texts, channels, front);
      if Repeats(key, texts, last) || ChannelKey(last) in channels then without
      else Max(without, 1 + MostChannels(key, texts + TextOf(key, last), channels + {ChannelKey(last)}, front))
  }

  /** These rows have texts and channels of their own. */
  ghost predicate Apart(key: TextKey, texts: set<string>, channels: set<string>, some: set<Doc>)
  {
    && (forall d :: d in some ==> !Repeats(key, texts, d) && ChannelKey(d) !in channels)
    && (forall d, e :: d in some && e in some && d != e ==>
          TextOf(key, d) !! TextOf(key, e) && ChannelKey(d) != ChannelKey(e))
  }

  lemma {:induction false} ApartAtMost(
      key: TextKey, texts: set<string>, channels: set<string>, rows: seq<Doc>, some: set<Doc>)
    requires Apart(key, texts, channels, some) && forall d :: d in some ==> d in rows
    ensures |some| <= MostChannels(key, texts, channels, rows)
    decreases rows
  {
    if rows == [] {
      assert some == {};
    } else {
      var front, last := rows[..|rows| - 1], rows[|rows| - 1];
      assert rows == front + [last];
      if last in some {
        ApartAtMost(key, texts + TextOf(key, last), channels + {ChannelKey(last)}, front, some - {last});
      } else {
        ApartAtMost(key, texts, channels, front, some);
      }
    }
  }

  lemma OneMoreApart(key: TextKey, texts: set<string>, channels: set<string>, d: Doc, others: set<Doc>)
    requires !Repeats(key, texts, d) && ChannelKey(d) !in channels
    requires Apart(key, texts + TextOf(key, d), channels + {ChannelKey(d)}, others)
    ensures d !in others && Apart(key, texts, channels, others + {d})
  {
    forall e | e in others ensures !Repeats(key, texts, e) && TextOf(key, e) !! TextOf(key, d) {
      assert !Repeats(key, texts + TextOf(key, d), e);
    }
  }

  lemma {:induction false} SomeApart(key: TextKey, texts: set<string>, channels: set<string>, rows: seq<Doc>)
    returns (some: set<Doc>)
    ensures Apart(key, texts, channels, some) && forall d :: d in some ==> d in rows
    ensures |some| == MostChannels(key, texts, channels, rows)
    decreases rows
  {
    if rows == [] {
      some := {};
    } else {
      var front, last := rows[..|rows| - 1], rows[|rows| - 1];
      assert rows == front + [last];
      some := SomeApart(key, texts, channels, front);
      if !Repeats(key, texts, last) && ChannelKey(last) !in channels {
        var others := SomeApart(key, texts + TextOf(key, last), channels + {ChannelKey(last)}, front);
        OneMoreApart(key, texts, channels, last, others);
        some := if |others| + 1 > |some| then others + {last} else some;
      }
    }
  }

  /** A row for every channel. */
  lemma {:induction false} RowPerChannel(rows: seq<Doc>) returns (some: set<Doc>)
    ensures |some| == |ChannelKeys(rows)| && forall d :: d in some ==> d in rows
    ensures forall d, e :: d in some && e in some && d != e ==> ChannelKey(d) != ChannelKey(e)
  {
    some := {};
    if rows != [] {
      var front, last := rows[..|rows| - 1], rows[|rows| - 1];
      assert rows == front + [last];
      some := RowPerChannel(front);
      ChannelKeysAre(front);
      if ChannelKey(last) !in ChannelKeys(front) {
        some := some + {last};
      }
    }
  }

  lemma {:induction false} ChannelPerRow(rows: seq<Doc>, some: set<Doc>) returns (keys: set<string>)
    requires forall d :: d in some ==> d in rows
    requires forall d, e :: d in some && e in some && d != e ==> ChannelKey(d) != ChannelKey(e)
    ensures |keys| == |some| && keys <= ChannelKeys(rows)
    ensures forall k :: k in keys <==> exists d :: d in some && ChannelKey(d) == k
    decreases some
  {
    ChannelKeysAre(rows);
    keys := {};
    if some != {} {
      var d :| d in some;
      keys := ChannelPerRow(rows, some - {d});
      keys := keys + {ChannelKey(d)};
    }
  }

  lemma ReachIsAtMost(key: TextKey, taken: set<string>, rows: seq<Doc>, floor: int)
    requires CouldReach(key, taken, rows, floor)
    ensures floor <= MostChannels(key, taken, {}, rows)
  {
    var drop :| ReachesWithout(key, taken, rows, floor, drop);
    var left := Outside(drop, rows);
    var some := RowPerChannel(Counted(key, taken, left));
    CountedAreRows(key, taken, left);
    OutsideIsOutside(drop, rows);
    forall d, e | d in some && e in some && d != e ensures TextOf(key, d) !! TextOf(key, e) {
      OneRowPerText(key, taken, left, d, e);
    }
    ApartAtMost(key, taken, {}, rows, some);
  }

  lemma ApartReach(key: TextKey, taken: set<string>, rows: seq<Doc>, some: set<Doc>)
    requires DistinctReceipts(rows) && Apart(key, taken, {}, some) && forall d :: d in some ==> d in rows
    ensures CouldReach(key, taken, rows, |some|)
  {
    var drop := set d | d in rows && d !in some :: d.receiptId;
    var left := Outside(drop, rows);
    OutsideIsOutside(drop, rows);
    forall d | d in some ensures d in left {
      if d.receiptId in drop {
        var e :| e in rows && e !in some && e.receiptId == d.receiptId;
        SameReceiptSameRow(rows, d, e);
      }
    }
    forall d | d in some ensures d in Counted(key, taken, left) {
      OwnTextCounts(key, taken, left, d);
    }
    var keys := ChannelPerRow(Counted(key, taken, left), some);
    SmallerSet(keys, ChannelKeys(Counted(key, taken, left)));
    assert ReachesWithout(key, taken, rows, |some|, drop);
  }

  lemma ReachExactly(key: TextKey, taken: set<string>, rows: seq<Doc>, floor: int)
    requires DistinctReceipts(rows)
    ensures CouldReach(key, taken, rows, floor) <==> floor <= MostChannels(key, taken, {}, rows)
  {
    if CouldReach(key, taken, rows, floor) {
      ReachIsAtMost(key, taken, rows, floor);
    }
    if floor <= MostChannels(key, taken, {}, rows) {
      var some := SomeApart(key, taken, {}, rows);
      ApartReach(key, taken, rows, some);
      var drop :| ReachesWithout(key, taken, rows, |some|, drop);
      assert ReachesWithout(key, taken, rows, floor, drop);
    }
  }

  /**
    A finding survives every further supporting row exactly when fewer opposing rows count than the threshold,
    or the opposing rows, each with a text of its own that no supporting row has, come from fewer channels than
    the floor however they are chosen. `textKey` leaves the empty text empty.
   */
  lemma FindingStaysExactly(
      key: TextKey, tierOf: TierOf, threshold: int, floor: int, records: seq<Doc>, refuting: seq<Doc>)
    requires key("") == "" && Judged(key, tierOf, threshold, floor, records, refuting) == Finding
    ensures (forall more :: Judged(key, tierOf, threshold, floor, records + more, refuting) == Finding)
       <==> (|Opposition(key, records, refuting)| < threshold
             || MostChannels(key, Texts(key, FirstRows(records)), {}, Opponents(records, refuting)) < floor)
  {
    StaysUnlessReached(key, tierOf, threshold, floor, records, refuting);
    OpponentsDistinct(records, refuting);
    ReachExactly(key, Texts(key, FirstRows(records)), Opponents(records, refuting), floor);
  }

  // ---- At the default floor ----

  lemma PairIsLeft(rows: seq<Doc>, d: Doc, e: Doc)
    requires DistinctReceipts(rows) && d in rows && e in rows
    ensures forall f :: f in Outside(Receipts(rows) - {d.receiptId, e.receiptId}, rows) <==> f == d || f == e
  {
    OutsideIsOutside(Receipts(rows) - {d.receiptId, e.receiptId}, rows);
    ReceiptsAre(rows);
    forall f | f in rows && (f.receiptId == d.receiptId || f.receiptId == e.receiptId) ensures f == d || f == e {
      SameReceiptSameRow(rows, f, if f.receiptId == d.receiptId then d else e);
    }
  }

  lemma PairReaches(key: TextKey, taken: set<string>, rows: seq<Doc>, d: Doc, e: Doc)
    requires DistinctReceipts(rows) && d in rows && e in rows && ChannelKey(d) != ChannelKey(e)
    requires !Repeats(key, taken, d) && !Repeats(key, taken, e) && TextOf(key, d) !! TextOf(key, e)
    ensures CouldReach(key, taken, rows, 2)
  {
    var drop := Receipts(rows) - {d.receiptId, e.receiptId};
    var left := Outside(drop, rows);
    PairIsLeft(rows, d, e);
    OwnTextCounts(key, taken, left, d);
    OwnTextCounts(key, taken, left, e);
    TwoChannels(Counted(key, taken, left), d, e);
    assert ReachesWithout(key, taken, rows, 2, drop);
  }

  lemma TwoChannels(rows: seq<Doc>, d: Doc, e: Doc)
    requires d in rows && e in rows && ChannelKey(d) != ChannelKey(e)
    ensures |ChannelKeys(rows)| >= 2
  {
    ChannelKeysAre(rows);
    SmallerSet({ChannelKey(d), ChannelKey(e)}, ChannelKeys(rows));
  }

  /** Two fresh rows with one text between them, and a third that counts beside them. */
  lemma ThirdRow(key: TextKey, taken: set<string>, rows: seq<Doc>, d: Doc) returns (f: Doc)
    requires DistinctReceipts(rows) && |Counted(key, taken, rows)| >= 2
    ensures f in rows && !Repeats(key, taken, f) && TextOf(key, f) !! TextOf(key, d)
  {
    var heard := Counted(key, taken, rows);
    CountedKeepReceiptsDistinct(key, taken, rows);
    CountedAreRows(key, taken, rows);
    assert heard[0].receiptId != heard[1].receiptId && heard[0] in heard && heard[1] in heard;
    OneRowPerText(key, taken, rows, heard[0], heard[1]);
    f := if TextOf(key, heard[0]) !! TextOf(key, d) then heard[0] else heard[1];
  }

  lemma RowsOfTwoChannels(rows: seq<Doc>) returns (d: Doc, e: Doc)
    requires |ChannelKeys(rows)| >= 2
    ensures d in rows && e in rows && ChannelKey(d) != ChannelKey(e)
  {
    var keys := ChannelKeys(rows);
    ChannelKeysAre(rows);
    var j :| j in keys;
    assert |keys - {j}| >= 1;
    var k :| k in keys - {j};
    d :| d in rows && ChannelKey(d) == j;
    e :| e in rows && ChannelKey(e) == k;
  }

  lemma TwoFreshChannels(key: TextKey, taken: set<string>, rows: seq<Doc>)
    requires DistinctReceipts(rows) && |Counted(key, taken, rows)| >= 2
    requires |ChannelKeys(Fresh(key, taken, rows))| >= 2
    ensures CouldReach(key, taken, rows, 2)
  {
    FreshIsFresh(key, taken, rows);
    var d, e := RowsOfTwoChannels(Fresh(key, taken, rows));
    if TextOf(key, d) !! TextOf(key, e) {
      PairReaches(key, taken, rows, d, e);
    } else {
      var f := ThirdRow(key, taken, rows, d);
      PairReaches(key, taken, rows, if ChannelKey(f) == ChannelKey(d) then e else d, f);
    }
  }

  lemma ReachIsFresh(key: TextKey, taken: set<string>, rows: seq<Doc>, floor: int)
    requires CouldReach(key, taken, rows, floor)
    ensures |ChannelKeys(Fresh(key, taken, rows))| >= floor
  {
    var drop :| ReachesWithout(key, taken, rows, floor, drop);
    var heard := Counted(key, taken, Outside(drop, rows));
    CountedAreRows(key, taken, Outside(drop, rows));
    OutsideIsOutside(drop, rows);
    FreshIsFresh(key, taken, rows);
    FewerChannels(heard, Fresh(key, taken, rows));
  }

  /**
    At the default floor of two channels the condition can be read off the rows: a finding survives all further
    support exactly when fewer opposing rows count than the threshold, or the fresh ones, repeats included,
    all come from one channel.
   */
  lemma FindingStaysAtTwoChannels(
      key: TextKey, tierOf: TierOf, threshold: int, records: seq<Doc>, refuting: seq<Doc>)
    requires key("") == "" && threshold >= 2
    requires Judged(key, tierOf, threshold, MIN_CHANNELS_FOR_FINDING, records, refuting) == Finding
    ensures (forall more :: Judged(key, tierOf, threshold, MIN_CHANNELS_FOR_FINDING, records + more, refuting)
                            == Finding)
       <==> (|Opposition(key, records, refuting)| < threshold
             || |ChannelKeys(Fresh(key, Texts(key, FirstRows(records)), Opponents(records, refuting)))| < 2)
  {
    var taken, rows := Texts(key, FirstRows(records)), Opponents(records, refuting);
    StaysUnlessReached(key, tierOf, threshold, MIN_CHANNELS_FOR_FINDING, records, refuting);
    OpponentsDistinct(records, refuting);
    if |Opposition(key, records, refuting)| >= threshold {
      if |ChannelKeys(Fresh(key, taken, rows))| >= 2 {
        TwoFreshChannels(key, taken, rows);
      } else if CouldReach(key, taken, rows, 2) {
        ReachIsFresh(key, taken, rows, 2);
      }
    }
  }
}
