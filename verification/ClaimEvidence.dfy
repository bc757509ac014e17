/**
  The sample of receipts shown for a claim (packages/core/src/evidence.ts): the best record of each channel
  first, and then the best of the others. What the flat rows of a claim add up to is decided here.
 */
module ClaimEvidence {
  import opened Basics
  import Sorting
  import opened Corpus
  import opened Corroborate
  import S = Spread

  const SAMPLE_SIZE: int := 3

  /** One row a receipt, best first, equal scores as they came. */
  function BestFirst(records: seq<Doc>): seq<Doc> { Sorting.Sort(S.ByScore, FirstRows(records)) }

  /** The first row of every channel. */
  function ChannelLeaders(rows: seq<Doc>): seq<Doc>
  {
    if rows == [] then []
    else
      var front, last := rows[..|rows| - 1], rows[|rows| - 1];
      if ChannelKey(last) in ChannelKeys(front) then ChannelLeaders(front) else ChannelLeaders(front) + [last]
  }

  /** The rows that are not among these. */
  function Others(picked: seq<Doc>, rows: seq<Doc>): seq<Doc>
  {
    if rows == [] then []
    else
      var rest, last := Others(picked, rows[..|rows| - 1]), rows[|rows| - 1];
      if last in picked then rest else rest + [last]
  }

  function UpTo(size: int, rows: seq<Doc>): seq<Doc> { rows[..S.Clamp(size, |rows|)] }

  function Leaders(records: seq<Doc>, size: int): seq<Doc> { UpTo(size, ChannelLeaders(BestFirst(records))) }

  function Sample(records: seq<Doc>, size: int): seq<Doc>
  {
    var leaders := Leaders(records, size);
    leaders + UpTo(size - |leaders|, Others(leaders, BestFirst(records)))
  }

  // ---- The loops ----

  lemma NextLeader(rows: seq<Doc>, d: Doc)
    ensures ChannelLeaders(rows + [d])
         == if ChannelKey(d) in ChannelKeys(rows) then ChannelLeaders(rows) else ChannelLeaders(rows) + [d]
    ensures ChannelKeys(rows + [d]) == ChannelKeys(rows) + {ChannelKey(d)}
  {
    assert (rows + [d])[..|rows|] == rows;
  }

  lemma NextOther(picked: seq<Doc>, rows: seq<Doc>, d: Doc)
    ensures Others(picked, rows + [d]) == if d in picked then Others(picked, rows) else Others(picked, rows) + [d]
  {
    assert (rows + [d])[..|rows|] == rows;
  }

  lemma {:induction false} LeadersGrow(rows: seq<Doc>, n: nat)
    requires n <= |rows|
    ensures ChannelLeaders(rows[..n]) <= ChannelLeaders(rows)
  {
    if n == |rows| {
      assert rows[..n] == rows;
    } else {
      LeadersGrow(rows[..|rows| - 1], n);
      assert rows[..|rows| - 1][..n] == rows[..n];
    }
  }

  lemma {:induction false} OthersGrow(picked: seq<Doc>, rows: seq<Doc>, n: nat)
    requires n <= |rows|
    ensures Others(picked, rows[..n]) <= Others(picked, rows)
  {
    if n == |rows| {
      assert rows[..n] == rows;
    } else {
      OthersGrow(picked, rows[..|rows| - 1], n);
      assert rows[..|rows| - 1][..n] == rows[..n];
    }
  }

  lemma FullPrefix(size: int, part: seq<Doc>, all: seq<Doc>)
    requires part <= all && (part == all || |part| >= size) && |part| <= Max(size, 0)
    ensures part == UpTo(size, all)
  {
  }

  ghost predicate Leading(picked: seq<Doc>, usedChannels: set<string>, done: seq<Doc>)
  {
    picked == ChannelLeaders(done) && usedChannels == ChannelKeys(done)
  }

  /** The first loop: a record of a channel that has none yet, best first, until the sample is full. */
  method PickLeaders(byScore: seq<Doc>, size: int) returns (picked: seq<Doc>)
    ensures picked == UpTo(size, ChannelLeaders(byScore))
  {
    picked := [];
    var usedChannels: set<string> := {};
    var i := 0;
    while i < |byScore| && |picked| < size
      invariant 0 <= i <= |byScore| && |picked| <= Max(size, 0)
      invariant Leading(picked, usedChannels, byScore[..i])
    {
      var record := byScore[i];
      OneMore(byScore, i);
      NextLeader(byScore[..i], record);
      if ChannelKey(record) !in usedChannels {
        usedChannels := usedChannels + {ChannelKey(record)};
        picked := picked + [record];
      }
      i := i + 1;
    }
    LeadersGrow(byScore, i);
    WholePrefix(byScore);
    FullPrefix(size, picked, ChannelLeaders(byScore));
  }

  /** What the second loop has added after these rows. */
  ghost predicate Filling(picked: seq<Doc>, leaders: seq<Doc>, done: seq<Doc>)
  {
    picked == leaders + Others(leaders, done)
  }

  /** No row occurs twice. */
  predicate NoTwice(rows: seq<Doc>) { forall i, j :: 0 <= i < j < |rows| ==> rows[i] != rows[j] }

  lemma {:induction false} OthersAre(picked: seq<Doc>, rows: seq<Doc>)
    ensures forall d :: d in Others(picked, rows) <==> d in rows && d !in picked
  {
    if rows != [] {
      var front, last := rows[..|rows| - 1], rows[|rows| - 1];
      OthersAre(picked, front);
      assert rows == front + [last];
    }
  }

  lemma NextFilling(picked: seq<Doc>, leaders: seq<Doc>, byScore: seq<Doc>, i: nat)
    requires NoTwice(byScore) && i < |byScore| && Filling(picked, leaders, byScore[..i])
    ensures Filling(if byScore[i] in picked then picked else picked + [byScore[i]], leaders, byScore[..i + 1])
  {
    OthersAre(leaders, byScore[..i]);
    OneMore(byScore, i);
    NextOther(leaders, byScore[..i], byScore[i]);
    Associative(leaders, Others(leaders, byScore[..i]), [byScore[i]]);
  }

  /** The second loop: the best of those not picked yet, until the sample is full. */
  method FillUp(byScore: seq<Doc>, size: int, leaders: seq<Doc>) returns (picked: seq<Doc>)
    requires NoTwice(byScore) && |leaders| <= Max(size, 0)
    ensures picked == leaders + UpTo(size - |leaders|, Others(leaders, byScore))
  {
    picked := leaders;
    var i := 0;
    while i < |byScore| && |picked| < size
      invariant 0 <= i <= |byScore| && |picked| <= Max(size, 0)
      invariant Filling(picked, leaders, byScore[..i])
    {
      var record := byScore[i];
      NextFilling(picked, leaders, byScore, i);
      if record !in picked {
        picked := picked + [record];
      }
      i := i + 1;
    }
    OthersGrow(leaders, byScore, i);
    WholePrefix(byScore);
    FullPrefix(size - |leaders|, Others(leaders, byScore[..i]), Others(leaders, byScore));
  }

  /** `sampleEvidence`, without the shortening of each text to its excerpt. */
  method SampleEvidence(records: seq<Doc>, size: int) returns (picked: seq<Doc>)
    ensures picked == Sample(records, size)
  {
    var unique := UniqueRows(records);
    var byScore := Sorting.Sort(S.ByScore, unique);
    BestFirstRows(records);
    picked := PickLeaders(byScore, size);
    picked := FillUp(byScore, size, picked);
  }

  // ---- What the sample is ----

  lemma BestFirstRows(records: seq<Doc>)
    ensures DistinctReceipts(BestFirst(records)) && NoTwice(BestFirst(records))
    ensures multiset(BestFirst(records)) == multiset(FirstRows(records))
    ensures |BestFirst(records)| == |FirstRows(records)|
    ensures forall d :: d in BestFirst(records) <==> d in FirstRows(records)
  {
    var first, best := FirstRows(records), BestFirst(records);
    FirstRowsAreRows(records);
    Sorting.Stable(S.ByScore, first);
    S.RearrangingKeepsReceiptsDistinct(first, best);
    assert |multiset(best)| == |best| && |multiset(first)| == |first|;
    forall d ensures d in best <==> d in first {
      assert d in multiset(best) <==> d in multiset(first);
    }
  }

  /** Every channel has a leader. */
  lemma {:induction false} LeadersAreRows(rows: seq<Doc>)
    ensures forall d :: d in ChannelLeaders(rows) ==> d in rows
    ensures ChannelKeys(ChannelLeaders(rows)) == ChannelKeys(rows)
  {
    if rows != [] {
      var front, last := rows[..|rows| - 1], rows[|rows| - 1];
      LeadersAreRows(front);
      assert rows == front + [last];
      NextLeader(ChannelLeaders(front), last);
    }
  }

  lemma OneMoreEach(rows: seq<Doc>, d: Doc)
    requires OneEach(rows) && ChannelKey(d) !in ChannelKeys(rows)
    ensures OneEach(rows + [d])
  {
    ChannelKeysAre(rows);
  }

  /** And only one. */
  lemma {:induction false} LeadersOneEach(rows: seq<Doc>)
    ensures OneEach(ChannelLeaders(rows))
  {
    if rows != [] {
      var front, last := rows[..|rows| - 1], rows[|rows| - 1];
      LeadersOneEach(front);
      LeadersAreRows(front);
      if ChannelKey(last) !in ChannelKeys(front) {
        OneMoreEach(ChannelLeaders(front), last);
      }
    }
  }

  /** No two rows from one channel. */
  predicate OneEach(rows: seq<Doc>)
  {
    forall i, j :: 0 <= i < j < |rows| ==> ChannelKey(rows[i]) != ChannelKey(rows[j])
  }

  lemma {:induction false} OneEachCounts(rows: seq<Doc>)
    requires OneEach(rows)
    ensures |ChannelKeys(rows)| == |rows|
  {
    if rows != [] {
      OneEachCounts(rows[..|rows| - 1]);
      ChannelKeysAre(rows[..|rows| - 1]);
    }
  }

  lemma {:induction false} NoTwiceCounts(rows: seq<Doc>)
    requires NoTwice(rows)
    ensures |Elements(rows)| == |rows|
  {
    if rows == [] {
      assert Elements(rows) == {};
    } else {
      NoTwiceCounts(rows[..|rows| - 1]);
      LastElement(rows);
    }
  }

  lemma {:induction false} OthersNoTwice(picked: seq<Doc>, rows: seq<Doc>)
    requires NoTwice(rows)
    ensures NoTwice(Others(picked, rows))
  {
    if rows != [] {
      OthersNoTwice(picked, rows[..|rows| - 1]);
      OthersAre(picked, rows[..|rows| - 1]);
    }
  }

  lemma OthersCount(picked: seq<Doc>, rows: seq<Doc>)
    requires NoTwice(rows) && NoTwice(picked) && forall d :: d in picked ==> d in rows
    ensures |Others(picked, rows)| == |rows| - |picked|
  {
    OthersAre(picked, rows);
    OthersNoTwice(picked, rows);
    NoTwiceCounts(picked);
    NoTwiceCounts(rows);
    NoTwiceCounts(Others(picked, rows));
    assert Elements(rows) == Elements(picked) + Elements(Others(picked, rows));
    assert Elements(picked) !! Elements(Others(picked, rows));
  }

  /** The sample's two parts, and when the second is empty. */
  ghost predicate AreParts(records: seq<Doc>, size: int, leaders: seq<Doc>, rest: seq<Doc>)
  {
    && Sample(records, size) == leaders + rest
    && OneEach(leaders) && NoTwice(leaders) && NoTwice(rest)
    && (forall d :: d in leaders ==> d in ChannelLeaders(BestFirst(records)) && d in BestFirst(records))
    && (forall d :: d in rest ==> d in BestFirst(records) && d !in leaders)
    && (rest == [] || leaders == ChannelLeaders(BestFirst(records)))
    && |leaders| == S.Clamp(size, |ChannelLeaders(BestFirst(records))|)
    && |leaders| + |rest| == S.Clamp(size, |BestFirst(records)|)
  }

  lemma LeadersFit(records: seq<Doc>, size: int)
    ensures var leaders, all := Leaders(records, size), ChannelLeaders(BestFirst(records));
            && |leaders| == S.Clamp(size, |all|) && OneEach(leaders) && NoTwice(leaders)
            && (leaders == all || |leaders| >= size)
            && forall d :: d in leaders ==> d in all && d in BestFirst(records)
  {
    LeadersAreRows(BestFirst(records));
    LeadersOneEach(BestFirst(records));
  }

  lemma RestFits(leaders: seq<Doc>, best: seq<Doc>, size: int)
    requires NoTwice(best) && NoTwice(leaders) && forall d :: d in leaders ==> d in best
    ensures var rest := UpTo(size - |leaders|, Others(leaders, best));
            && NoTwice(rest) && (forall d :: d in rest ==> d in best && d !in leaders)
            && |best| >= |leaders| && |rest| == S.Clamp(size - |leaders|, |best| - |leaders|)
  {
    var others := Others(leaders, best);
    OthersAre(leaders, best);
    OthersNoTwice(leaders, best);
    OthersCount(leaders, best);
    assert forall d :: d in UpTo(size - |leaders|, others) ==> d in others;
  }

  lemma PartsOf(records: seq<Doc>, size: int) returns (leaders: seq<Doc>, rest: seq<Doc>)
    ensures AreParts(records, size, leaders, rest)
  {
    leaders := Leaders(records, size);
    rest := UpTo(size - |leaders|, Others(leaders, BestFirst(records)));
    BestFirstRows(records);
    LeadersFit(records, size);
    RestFits(leaders, BestFirst(records), size);
  }

  lemma JoinNoTwice(xs: seq<Doc>, ys: seq<Doc>)
    requires NoTwice(xs) && NoTwice(ys) && forall d :: d in ys ==> d !in xs
    ensures NoTwice(xs + ys)
  {
    forall i, j | 0 <= i < j < |xs + ys| ensures (xs + ys)[i] != (xs + ys)[j] {
      if i < |xs| <= j {
        assert (xs + ys)[j] in ys && (xs + ys)[i] in xs;
      }
    }
  }

  lemma DistinctAmong(rows: seq<Doc>, some: seq<Doc>)
    requires DistinctReceipts(rows) && NoTwice(some) && forall d :: d in some ==> d in rows
    ensures DistinctReceipts(some)
  {
    forall i, j | 0 <= i < j < |some| ensures some[i].receiptId != some[j].receiptId {
      assert some[i] in rows && some[j] in rows;
      var a :| 0 <= a < |rows| && rows[a] == some[i];
      var b :| 0 <= b < |rows| && rows[b] == some[j];
      assert a < b || b < a;
    }
  }

  /** As many records as asked for, or as there are receipts, and no receipt twice. */
  lemma SampleTakesReceiptsOnce(records: seq<Doc>, size: int)
    ensures |Sample(records, size)| == Min(Max(size, 0), |FirstRows(records)|)
    ensures DistinctReceipts(Sample(records, size))
    ensures forall d :: d in Sample(records, size) ==> d in FirstRows(records)
  {
    var leaders, rest := PartsOf(records, size);
    BestFirstRows(records);
    JoinNoTwice(leaders, rest);
    DistinctAmong(BestFirst(records), leaders + rest);
  }

  lemma SameRowsSameChannels(rows: seq<Doc>, others: seq<Doc>)
    requires forall d :: d in rows <==> d in others
    ensures ChannelKeys(rows) == ChannelKeys(others)
  {
    ChannelKeysAre(rows);
    ChannelKeysAre(others);
  }

  lemma MoreRowsSameChannels(rows: seq<Doc>, more: seq<Doc>)
    requires forall d :: d in more ==> ChannelKey(d) in ChannelKeys(rows)
    ensures ChannelKeys(rows + more) == ChannelKeys(rows)
  {
    ChannelKeysAre(rows);
    ChannelKeysAre(rows + more);
  }

  /** Spread before score: the sample shows as many channels as it has places for. */
  lemma SampleShowsChannels(records: seq<Doc>, size: int)
    ensures |ChannelKeys(Sample(records, size))| == Min(Max(size, 0), |ChannelKeys(FirstRows(records))|)
  {
    var best := BestFirst(records);
    var leaders, rest := PartsOf(records, size);
    BestFirstRows(records);
    SameRowsSameChannels(best, FirstRows(records));
    LeadersAreRows(best);
    LeadersOneEach(best);
    OneEachCounts(ChannelLeaders(best));
    OneEachCounts(leaders);
    ChannelKeysAre(best);
    MoreRowsSameChannels(leaders, rest);
  }

  lemma LastIsLeast(rows: seq<Doc>, d: Doc)
    requires Sorting.Sorted(S.ByScore, rows) && d in rows
    ensures rows[|rows| - 1].score <= d.score
  {
    var i :| 0 <= i < |rows| && rows[i] == d;
    assert i < |rows| - 1 ==> S.ByScore(rows[i]) <= S.ByScore(rows[|rows| - 1]);
  }

  /** The first of a channel, best first, is its best. */
  lemma {:induction false} LeaderLeads(rows: seq<Doc>, e: Doc, d: Doc)
    requires Sorting.Sorted(S.ByScore, rows) && e in ChannelLeaders(rows) && d in rows
    requires ChannelKey(d) == ChannelKey(e)
    ensures d.score <= e.score
  {
    var front, last := rows[..|rows| - 1], rows[|rows| - 1];
    LeadersAreRows(rows);
    LastIsLeast(rows, e);
    if d != last {
      assert rows == front + [last];
      ChannelKeysAre(front);
      LeaderLeads(front, e, d);
    }
  }

  /** Every channel shown is shown by its best record. */
  lemma SampleShowsTheBest(records: seq<Doc>, size: int, d: Doc)
    requires d in Sample(records, size)
    ensures exists e :: e in Sample(records, size) && BestOfChannel(records, e, d)
  {
    var leaders, rest := PartsOf(records, size);
    BestFirstRows(records);
    var e := LeaderShown(BestFirst(records), leaders, rest, d);
    Sorting.Stable(S.ByScore, FirstRows(records));
    forall f | f in FirstRows(records) && ChannelKey(f) == ChannelKey(d) ensures f.score <= e.score {
      LeaderLeads(BestFirst(records), e, f);
    }
    assert e in Sample(records, size) && BestOfChannel(records, e, d);
  }

  lemma LeaderShown(best: seq<Doc>, leaders: seq<Doc>, rest: seq<Doc>, d: Doc) returns (e: Doc)
    requires d in leaders + rest && (rest == [] || leaders == ChannelLeaders(best))
    requires forall f :: f in leaders ==> f in ChannelLeaders(best)
    requires forall f :: f in rest ==> f in best
    ensures e in leaders && e in ChannelLeaders(best) && ChannelKey(e) == ChannelKey(d)
  {
    e := d;
    if d !in leaders {
      LeadersAreRows(best);
      ChannelKeysAre(best);
      ChannelKeysAre(ChannelLeaders(best));
      assert ChannelKey(d) in ChannelKeys(ChannelLeaders(best));
      e :| e in ChannelLeaders(best) && ChannelKey(e) == ChannelKey(d);
    }
  }

  /** The last of sorted rows may follow any of them. */
  lemma LastGoesLast(rows: seq<Doc>, some: seq<Doc>)
    requires Sorting.Sorted(S.ByScore, rows) && rows != []
    requires Sorting.Sorted(S.ByScore, some) && forall d :: d in some ==> d in rows
    ensures Sorting.Sorted(S.ByScore, some + [rows[|rows| - 1]])
  {
    forall i | 0 <= i < |some| ensures S.ByScore(some[i]) <= S.ByScore(rows[|rows| - 1]) {
      assert some[i] in rows;
      LastIsLeast(rows, some[i]);
    }
  }

  lemma {:induction false} OthersSorted(picked: seq<Doc>, rows: seq<Doc>)
    requires Sorting.Sorted(S.ByScore, rows)
    ensures Sorting.Sorted(S.ByScore, Others(picked, rows))
  {
    if rows != [] {
      var front := rows[..|rows| - 1];
      OthersSorted(picked, front);
      OthersAre(picked, front);
      LastGoesLast(rows, Others(picked, front));
    }
  }

  lemma {:induction false} LeadersSorted(rows: seq<Doc>)
    requires Sorting.Sorted(S.ByScore, rows)
    ensures Sorting.Sorted(S.ByScore, ChannelLeaders(rows))
  {
    if rows != [] {
      var front := rows[..|rows| - 1];
      LeadersSorted(front);
      LeadersAreRows(front);
      LastGoesLast(rows, ChannelLeaders(front));
    }
  }

  predicate NeverRises(rows: seq<Doc>) { forall i, j :: 0 <= i < j < |rows| ==> rows[j].score <= rows[i].score }

  lemma SortedNeverRises(rows: seq<Doc>, k: nat)
    requires Sorting.Sorted(S.ByScore, rows) && k <= |rows|
    ensures NeverRises(rows[..k])
  {
    forall i, j | 0 <= i < j < k ensures rows[j].score <= rows[i].score {
      assert S.ByScore(rows[i]) <= S.ByScore(rows[j]);
    }
  }

  /** First one record of each channel shown, and then the others; neither part ever rises in score. */
  lemma SampleLeadsWithChannels(records: seq<Doc>, size: int) returns (n: nat)
    ensures n <= |Sample(records, size)|
    ensures var sample := Sample(records, size);
            && |ChannelKeys(sample[..n])| == n && ChannelKeys(sample[..n]) == ChannelKeys(sample)
            && NeverRises(sample[..n]) && NeverRises(sample[n..])
  {
    var best, leaders := BestFirst(records), Leaders(records, size);
    var others := Others(leaders, best);
    n := |leaders|;
    Sorting.Stable(S.ByScore, FirstRows(records));
    LeadersFit(records, size);
    LeadersSorted(best);
    OthersSorted(leaders, best);
    SortedNeverRises(ChannelLeaders(best), |leaders|);
    SortedNeverRises(others, S.Clamp(size - |leaders|, |others|));
    OneEachCounts(leaders);
    RestShowsNoOther(records, size);
    var sample := Sample(records, size);
    assert sample[..n] == leaders && sample[n..] == UpTo(size - |leaders|, others);
  }

  lemma RestShowsNoOther(records: seq<Doc>, size: int)
    ensures ChannelKeys(Sample(records, size)) == ChannelKeys(Leaders(records, size))
  {
    var best, leaders := BestFirst(records), Leaders(records, size);
    var rest := UpTo(size - |leaders|, Others(leaders, best));
    LeadersFit(records, size);
    LeadersAreRows(best);
    OthersAre(leaders, best);
    ChannelKeysAre(best);
    assert rest == [] || leaders == ChannelLeaders(best);
    MoreRowsSameChannels(leaders, rest);
  }

  lemma BeforeTheCut(rows: seq<Doc>, k: nat, e: Doc, d: Doc)
    requires Sorting.Sorted(S.ByScore, rows) && k <= |rows| && e in rows[..k] && d in rows && d !in rows[..k]
    ensures d.score <= e.score
  {
    var i :| 0 <= i < k && rows[i] == e;
    var j :| 0 <= j < |rows| && rows[j] == d;
    assert forall x :: 0 <= x < k ==> rows[x] in rows[..k];
    assert S.ByScore(rows[i]) <= S.ByScore(rows[j]);
  }

  /** A record shown is the best of its channel, or no worse than any that is left out. */
  lemma LeftOutIsNoBetter(records: seq<Doc>, size: int, e: Doc, d: Doc)
    requires e in Sample(records, size) && d in FirstRows(records) && d !in Sample(records, size)
    ensures BestOfChannel(records, e, e) || d.score <= e.score
  {
    var leaders, best := Leaders(records, size), BestFirst(records);
    var others := Others(leaders, best);
    BestFirstRows(records);
    Sorting.Stable(S.ByScore, FirstRows(records));
    if e in leaders {
      LeadersFit(records, size);
      forall f | f in FirstRows(records) && ChannelKey(f) == ChannelKey(e) ensures f.score <= e.score {
        LeaderLeads(best, e, f);
      }
    } else {
      OthersSorted(leaders, best);
      OthersAre(leaders, best);
      BeforeTheCut(others, S.Clamp(size - |leaders|, |others|), e, d);
    }
  }

  predicate BestOfChannel(records: seq<Doc>, e: Doc, d: Doc)
  {
    ChannelKey(e) == ChannelKey(d)
    && forall f :: f in FirstRows(records) && ChannelKey(f) == ChannelKey(d) ==> f.score <= e.score
  }

  // ---- Do the rows regroup to the counts? ----

  lemma SameReceipts(rows: seq<Doc>, others: seq<Doc>)
    requires DistinctReceipts(rows) && DistinctReceipts(others) && forall d :: d in rows ==> d in others
    ensures Receipts(rows) <= Receipts(others) && |Receipts(rows)| == |rows| && |Receipts(others)| == |others|
    ensures Receipts(rows) == Receipts(others) <==> |rows| == |others|
  {
    ReceiptsAre(rows);
    ReceiptsAre(others);
    ReceiptsOfDistinct(rows);
    ReceiptsOfDistinct(others);
    if |rows| == |others| {
      assert |Receipts(others) - Receipts(rows)| == 0;
    }
  }

  /**
    A claim's rows carry every receipt its count was taken over exactly when no receipt is left out of the sample;
    and there are as many rows as records that count exactly when the sample is of that size, or nothing is left
    out and no text is repeated.
   */
  lemma RowsRegroupExactly(key: TextKey, records: seq<Doc>, size: int)
    ensures Receipts(Sample(records, size)) == Receipts(FirstRows(records)) <==> |FirstRows(records)| <= Max(size, 0)
    ensures |Sample(records, size)| == |Support(key, records)|
       <==> || Max(size, 0) == |Support(key, records)|
            || |Support(key, records)| == |FirstRows(records)| <= size
  {
    var rows := FirstRows(records);
    SampleTakesReceiptsOnce(records, size);
    FirstRowsAreRows(records);
    SameReceipts(Sample(records, size), rows);
    CountedKeepReceiptsDistinct(key, {}, rows);
    CountedAreRows(key, {}, rows);
    SameReceipts(Support(key, records), rows);
    SmallerSet(Receipts(Support(key, records)), Receipts(rows));
  }

  function Voice(id: string): Doc { Doc(id, "forum", "main", "comment", id, 0) }

  lemma LeftOut(records: seq<Doc>)
    requires DistinctReceipts(records) && |records| > SAMPLE_SIZE
    ensures Receipts(Sample(records, SAMPLE_SIZE)) != Receipts(FirstRows(records))
  {
    AllFirst(records);
    RowsRegroupExactly((t: string) => t, records, SAMPLE_SIZE);
  }

  /** Four receipts at the default size: one of the ids that count is on no row. */
  lemma FourReceiptsDoNotRegroup()
    ensures var records := [Voice("a"), Voice("b"), Voice("c"), Voice("d")];
            Receipts(Sample(records, SAMPLE_SIZE)) != Receipts(FirstRows(records))
  {
    LeftOut([Voice("a"), Voice("b"), Voice("c"), Voice("d")]);
  }
}
