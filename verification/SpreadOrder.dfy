/**
  The order of the picks of packages/core/src/synthesise.ts, said of the picks themselves: turn by turn, each
  turn in the order in which the channels first appear, and each channel best first.
 */
module SpreadOrder {
  import opened Basics
  import opened Corpus
  import Sorting
  import opened S = Spread

  // ---- The rows of one channel ----

  ghost function ChannelPlaces(k: string, rows: seq<Doc>): set<nat>
  {
    set i: nat | i < |rows| && ChannelKey(rows[i]) == k
  }

  lemma {:induction false} InChannelExactly(k: string, rows: seq<Doc>)
    ensures InChannel(k, rows) == Pick(rows, ChannelPlaces(k, rows))
  {
    if rows != [] {
      var front := rows[..|rows| - 1];
      InChannelExactly(k, front);
      PickAgrees(front, ChannelPlaces(k, front), ChannelPlaces(k, rows));
    }
  }

  lemma InChannelCounts(k: string, rows: seq<Doc>)
    ensures |InChannel(k, rows)| == |ChannelPlaces(k, rows)|
  {
    InChannelExactly(k, rows);
    PickCounts(rows, ChannelPlaces(k, rows));
  }

  /** The first row comes before the second in this list. */
  predicate Precedes(rows: seq<Doc>, d: Doc, e: Doc)
  {
    exists a, b :: 0 <= a < b < |rows| && rows[a] == d && rows[b] == e
  }

  lemma ChannelKeepsOrder(k: string, rows: seq<Doc>, i: nat, j: nat)
    requires i < j < |InChannel(k, rows)|
    ensures Precedes(rows, InChannel(k, rows)[i], InChannel(k, rows)[j])
  {
    InChannelExactly(k, rows);
    var a, b := PickedInOrder(rows, ChannelPlaces(k, rows), i, j);
  }

  // ---- Best first ----

  lemma RankedInOrder(k: string, rows: seq<Doc>, i: nat, j: nat)
    requires i < j < |Ranked(k, rows)|
    ensures Ranked(k, rows)[i].score >= Ranked(k, rows)[j].score
    ensures Ranked(k, rows)[i].score == Ranked(k, rows)[j].score
            ==> Precedes(rows, Ranked(k, rows)[i], Ranked(k, rows)[j])
  {
    var own, best := InChannel(k, rows), Ranked(k, rows);
    Sorting.Stable(ByScore, own);
    assert ByScore(best[i]) <= ByScore(best[j]);
    if best[i].score == best[j].score {
      var a, b := Sorting.SortKeepsOrder(ByScore, own, i, j);
      ChannelKeepsOrder(k, rows, a, b);
    }
  }

  /** Two picks of one channel are at places in its best-first order. */
  lemma PicksInChannel(records: seq<Doc>, max: int, p: nat, q: nat) returns (i: nat, j: nat)
    requires p < q < |Spread(records, max)|
    requires ChannelKey(Spread(records, max)[p]) == ChannelKey(Spread(records, max)[q])
    ensures var picks := Spread(records, max);
            var best := Ranked(ChannelKey(picks[p]), FirstRows(records));
            i < j < |best| && best[i] == picks[p] && best[j] == picks[q]
  {
    var picks := Spread(records, max);
    var k := ChannelKey(picks[p]);
    PickIsFirst(records, max, picks[p]);
    ChannelsDistinct(FirstRows(records));
    SpreadTakesTheBest(records, max, k);
    InChannelExactly(k, picks);
    i, j := PlacesInOrder(picks, ChannelPlaces(k, picks), p, q);
  }

  lemma PickIsFirst(records: seq<Doc>, max: int, d: Doc)
    requires d in Spread(records, max)
    ensures d in FirstRows(records)
  {
    SpreadTakesReceiptsOnce(records, max);
    assert d in multiset(Spread(records, max));
    assert d in multiset(FirstRows(records));
  }

  /**
    The picks of a channel never rise in score; equal scores keep the order of the rows; and no row of the channel
    that is left out scores higher than one that is picked.
   */
  lemma PicksAreBestFirst(records: seq<Doc>, max: int)
    ensures var picks := Spread(records, max);
            forall p, q :: 0 <= p < q < |picks| && ChannelKey(picks[p]) == ChannelKey(picks[q]) ==>
              && picks[p].score >= picks[q].score
              && (picks[p].score == picks[q].score ==> Precedes(FirstRows(records), picks[p], picks[q]))
    ensures var picks := Spread(records, max);
            forall d, e :: d in FirstRows(records) && d !in picks && e in picks && ChannelKey(d) == ChannelKey(e) ==>
              d.score <= e.score
  {
    var picks, first := Spread(records, max), FirstRows(records);
    forall p, q | 0 <= p < q < |picks| && ChannelKey(picks[p]) == ChannelKey(picks[q])
      ensures picks[p].score >= picks[q].score
      ensures picks[p].score == picks[q].score ==> Precedes(first, picks[p], picks[q])
    {
      var i, j := PicksInChannel(records, max, p, q);
      RankedInOrder(ChannelKey(picks[p]), first, i, j);
    }
    forall d, e | d in first && d !in picks && e in picks && ChannelKey(d) == ChannelKey(e) ensures d.score <= e.score {
      LeftOutIsNoBetter(records, max, d, e);
    }
  }

  lemma InOwnChannel(rows: seq<Doc>, d: Doc) returns (i: nat)
    requires d in rows
    ensures i < |InChannel(ChannelKey(d), rows)| && InChannel(ChannelKey(d), rows)[i] == d
  {
    var k := ChannelKey(d);
    var a :| 0 <= a < |rows| && rows[a] == d;
    InChannelExactly(k, rows);
    PickedAre(rows, ChannelPlaces(k, rows));
    assert a in ChannelPlaces(k, rows) && rows[a] == d;
    assert d in InChannel(k, rows);
    i :| 0 <= i < |InChannel(k, rows)| && InChannel(k, rows)[i] == d;
  }

  lemma RankedHasAll(k: string, rows: seq<Doc>, d: Doc) returns (i: nat)
    requires d in InChannel(k, rows)
    ensures i < |Ranked(k, rows)| && Ranked(k, rows)[i] == d
  {
    RankedSound(k, rows);
    assert d in multiset(Ranked(k, rows));
    i :| 0 <= i < |Ranked(k, rows)| && Ranked(k, rows)[i] == d;
  }

  lemma LeftOutIsNoBetter(records: seq<Doc>, max: int, d: Doc, e: Doc)
    requires d in FirstRows(records) && d !in Spread(records, max) && e in Spread(records, max)
    requires ChannelKey(d) == ChannelKey(e)
    ensures d.score <= e.score
  {
    var picks, first, k := Spread(records, max), FirstRows(records), ChannelKey(d);
    ChannelsDistinct(first);
    SpreadTakesTheBest(records, max, k);
    var i := InOwnChannel(picks, e);
    var a := InOwnChannel(first, d);
    var j := RankedHasAll(k, first, d);
    InChannelExactly(k, picks);
    PickedAre(picks, ChannelPlaces(k, picks));
    assert d !in InChannel(k, picks);
    RankedInOrder(k, first, i, j);
  }

  // ---- Turn by turn ----

  /** How many picks of its channel come before a pick. */
  ghost function Turn(picks: seq<Doc>, p: nat): nat
    requires p < |picks|
  {
    |set r: nat | r < p && ChannelKey(picks[r]) == ChannelKey(picks[p])|
  }

  /** The first channel appears in these rows before the second does. */
  predicate SeenBefore(rows: seq<Doc>, k: string, l: string)
  {
    exists i :: 0 <= i < |rows| && ChannelKey(rows[i]) == k && (forall j :: 0 <= j <= i ==> ChannelKey(rows[j]) != l)
  }

  function TurnIn(picks: seq<Doc>, p: nat): nat
    requires p < |picks|
  {
    |InChannel(ChannelKey(picks[p]), picks[..p])|
  }

  lemma TurnIsTurn(picks: seq<Doc>, p: nat)
    requires p < |picks|
    ensures Turn(picks, p) == TurnIn(picks, p)
  {
    var k := ChannelKey(picks[p]);
    InChannelCounts(k, picks[..p]);
    assert (set r: nat | r < p && ChannelKey(picks[r]) == k) == ChannelPlaces(k, picks[..p]);
  }

  predicate KeyBefore(keys: seq<string>, k: string, l: string)
  {
    exists a, b :: 0 <= a < b < |keys| && keys[a] == k && keys[b] == l
  }

  predicate InTurn(keys: seq<string>, picks: seq<Doc>, p: nat, q: nat)
    requires p < q < |picks|
  {
    || TurnIn(picks, p) < TurnIn(picks, q)
    || (TurnIn(picks, p) == TurnIn(picks, q) && KeyBefore(keys, ChannelKey(picks[p]), ChannelKey(picks[q])))
  }

  /** The heads are from different channels, in the order of the queues. */
  lemma {:induction false} HeadsInTurn(keys: seq<string>, queues: seq<seq<Doc>>, p: nat, q: nat)
    requires OneQueueEach(keys, queues) && p < q < |Heads(queues)|
    ensures KeyBefore(keys, ChannelKey(Heads(queues)[p]), ChannelKey(Heads(queues)[q]))
  {
    var n := |Head(queues[0])|;
    if p < n {
      var b := HeadHasKey(keys[1..], queues[1..], q - n);
      assert Heads(queues)[p] in queues[0] && AllIn(keys[0], queues[0]);
      assert keys[0] == ChannelKey(Heads(queues)[p]) && keys[b + 1] == ChannelKey(Heads(queues)[q]);
    } else {
      HeadsInTurn(keys[1..], queues[1..], p - n, q - n);
      KeyBeforeInTail(keys, ChannelKey(Heads(queues)[p]), ChannelKey(Heads(queues)[q]));
    }
  }

  lemma KeyBeforeInTail(keys: seq<string>, k: string, l: string)
    requires keys != [] && KeyBefore(keys[1..], k, l)
    ensures KeyBefore(keys, k, l)
  {
    var a, b :| 0 <= a < b < |keys[1..]| && keys[1..][a] == k && keys[1..][b] == l;
    assert keys[a + 1] == k && keys[b + 1] == l;
  }

  lemma {:induction false} HeadHasKey(keys: seq<string>, queues: seq<seq<Doc>>, p: nat) returns (i: nat)
    requires OneQueueEach(keys, queues) && p < |Heads(queues)|
    ensures i < |keys| && keys[i] == ChannelKey(Heads(queues)[p]) && queues[i] != []
  {
    var n := |Head(queues[0])|;
    if p < n {
      assert queues[0][0] in queues[0] && AllIn(keys[0], queues[0]);
      i := 0;
    } else {
      i := HeadHasKey(keys[1..], queues[1..], p - n);
      i := i + 1;
    }
  }

  lemma HeadsAreFirst(keys: seq<string>, queues: seq<seq<Doc>>, p: nat)
    requires OneQueueEach(keys, queues) && p < |Heads(queues)|
    ensures TurnIn(Heads(queues), p) == 0
  {
    var heads := Heads(queues);
    var i := HeadHasKey(keys, queues, p);
    HeadsInChannel(keys, queues, i);
    CutAt(heads, p);
    InChannelAppend(keys[i], heads[..p] + [heads[p]], heads[p + 1..]);
    InChannelAppend(keys[i], heads[..p], [heads[p]]);
    assert InChannel(keys[i], [heads[p]]) == [heads[p]] by {
      assert [heads[p]][..0] == [];
    }
  }

  lemma TurnOfFront(xs: seq<Doc>, ys: seq<Doc>, p: nat)
    requires p < |xs|
    ensures TurnIn(xs + ys, p) == TurnIn(xs, p)
  {
    assert (xs + ys)[..p] == xs[..p];
  }

  /** After a round, every turn is one more. */
  lemma TurnAfterHeads(keys: seq<string>, queues: seq<seq<Doc>>, rest: seq<Doc>, p: nat, i: nat)
    requires OneQueueEach(keys, queues) && p < |rest|
    requires i < |keys| && keys[i] == ChannelKey(rest[p]) && queues[i] != []
    ensures TurnIn(Heads(queues) + rest, |Heads(queues)| + p) == 1 + TurnIn(rest, p)
  {
    var heads := Heads(queues);
    HeadsInChannel(keys, queues, i);
    InChannelAppend(keys[i], heads, rest[..p]);
    assert (heads + rest)[..|heads| + p] == heads + rest[..p];
  }

  lemma {:induction false} RoundsHaveKeys(keys: seq<string>, queues: seq<seq<Doc>>, p: nat) returns (i: nat)
    requires OneQueueEach(keys, queues) && p < |Rounds(queues)|
    ensures i < |keys| && keys[i] == ChannelKey(Rounds(queues)[p]) && queues[i] != []
    decreases Total(queues)
  {
    HeadsAndTails(queues);
    RoundDone(queues);
    if p < |Heads(queues)| {
      i := HeadHasKey(keys, queues, p);
    } else {
      TailsOneQueueEach(keys, queues);
      i := RoundsHaveKeys(keys, Tails(queues), p - |Heads(queues)|);
    }
  }

  predicate AllInTurn(keys: seq<string>, picks: seq<Doc>)
  {
    forall p, q :: 0 <= p < q < |picks| ==> InTurn(keys, picks, p, q)
  }

  /** A round: every channel's first, in the order of the channels. */
  predicate IsRound(keys: seq<string>, heads: seq<Doc>)
  {
    && (forall p :: 0 <= p < |heads| ==> TurnIn(heads, p) == 0)
    && (forall p, q :: 0 <= p < q < |heads| ==> KeyBefore(keys, ChannelKey(heads[p]), ChannelKey(heads[q])))
  }

  predicate LaterBy(heads: seq<Doc>, rest: seq<Doc>, p: nat)
    requires p < |rest|
  {
    TurnIn(heads + rest, |heads| + p) == 1 + TurnIn(rest, p)
  }

  lemma JoinInTurn(keys: seq<string>, heads: seq<Doc>, rest: seq<Doc>, p: nat, q: nat)
    requires IsRound(keys, heads) && AllInTurn(keys, rest) && forall r :: 0 <= r < |rest| ==> LaterBy(heads, rest, r)
    requires p < q < |heads + rest|
    ensures InTurn(keys, heads + rest, p, q)
  {
    var n := |heads|;
    if p < n {
      TurnOfFront(heads, rest, p);
    } else {
      assert LaterBy(heads, rest, p - n);
    }
    if q < n {
      TurnOfFront(heads, rest, q);
    } else {
      assert LaterBy(heads, rest, q - n);
    }
    if p >= n {
      assert InTurn(keys, rest, p - n, q - n);
    }
  }

  lemma HeadsAreARound(keys: seq<string>, queues: seq<seq<Doc>>)
    requires OneQueueEach(keys, queues)
    ensures IsRound(keys, Heads(queues))
  {
    forall p | 0 <= p < |Heads(queues)| ensures TurnIn(Heads(queues), p) == 0 {
      HeadsAreFirst(keys, queues, p);
    }
    forall p, q | 0 <= p < q < |Heads(queues)|
      ensures KeyBefore(keys, ChannelKey(Heads(queues)[p]), ChannelKey(Heads(queues)[q]))
    {
      HeadsInTurn(keys, queues, p, q);
    }
  }

  lemma RestIsLater(keys: seq<string>, queues: seq<seq<Doc>>, p: nat)
    requires OneQueueEach(keys, queues) && p < |Rounds(Tails(queues))|
    ensures LaterBy(Heads(queues), Rounds(Tails(queues)), p)
  {
    HeadsAndTails(queues);
    TailsOneQueueEach(keys, queues);
    var i := RoundsHaveKeys(keys, Tails(queues), p);
    TurnAfterHeads(keys, queues, Rounds(Tails(queues)), p, i);
  }

  lemma RoundThenRest(keys: seq<string>, queues: seq<seq<Doc>>, rest: seq<Doc>)
    requires OneQueueEach(keys, queues) && rest == Rounds(Tails(queues)) && AllInTurn(keys, rest)
    ensures AllInTurn(keys, Heads(queues) + rest)
  {
    HeadsAreARound(keys, queues);
    forall r | 0 <= r < |rest| ensures LaterBy(Heads(queues), rest, r) {
      RestIsLater(keys, queues, r);
    }
    forall p, q | 0 <= p < q < |Heads(queues) + rest| ensures InTurn(keys, Heads(queues) + rest, p, q) {
      JoinInTurn(keys, Heads(queues), rest, p, q);
    }
  }

  lemma {:induction false} RoundsInTurn(keys: seq<string>, queues: seq<seq<Doc>>)
    requires OneQueueEach(keys, queues)
    ensures AllInTurn(keys, Rounds(queues))
    decreases Total(queues)
  {
    HeadsAndTails(queues);
    RoundDone(queues);
    if Heads(queues) != [] {
      TailsOneQueueEach(keys, queues);
      RoundsInTurn(keys, Tails(queues));
      RoundThenRest(keys, queues, Rounds(Tails(queues)));
    }
  }

  lemma {:induction false} ChannelsInOrder(rows: seq<Doc>, a: nat, b: nat)
    requires a < b < |Channels(rows)|
    ensures SeenBefore(rows, Channels(rows)[a], Channels(rows)[b])
  {
    var front, last := rows[..|rows| - 1], rows[|rows| - 1];
    assert rows == front + [last];
    if b < |Channels(front)| {
      ChannelsInOrder(front, a, b);
      SeenBeforeStays(front, last, Channels(front)[a], Channels(front)[b]);
    } else {
      ChannelsDistinct(front);
      ChannelIsSeen(front, Channels(front)[a]);
      var i :| 0 <= i < |front| && ChannelKey(front[i]) == Channels(front)[a];
      forall j | 0 <= j <= i ensures ChannelKey(rows[j]) != ChannelKey(last) {
        assert rows[j] == front[j] && front[j] in front;
      }
      assert rows[i] == front[i];
    }
  }

  lemma SeenBeforeStays(front: seq<Doc>, last: Doc, k: string, l: string)
    requires SeenBefore(front, k, l)
    ensures SeenBefore(front + [last], k, l)
  {
    var i :| 0 <= i < |front| && ChannelKey(front[i]) == k && (forall j :: 0 <= j <= i ==> ChannelKey(front[j]) != l);
    assert forall j :: 0 <= j <= i ==> (front + [last])[j] == front[j];
  }

  lemma {:induction false} ChannelIsSeen(rows: seq<Doc>, k: string)
    requires k in Channels(rows)
    ensures exists i :: 0 <= i < |rows| && ChannelKey(rows[i]) == k
  {
    var front, last := rows[..|rows| - 1], rows[|rows| - 1];
    if k in Channels(front) {
      ChannelIsSeen(front, k);
      var i :| 0 <= i < |front| && ChannelKey(front[i]) == k;
      assert rows[i] == front[i];
    } else {
      assert ChannelKey(rows[|rows| - 1]) == k;
    }
  }

  /** The picks take turns: a turn is over before the next begins, and in it channels come as they first appear. */
  lemma PicksTakeTurns(records: seq<Doc>, max: int, p: nat, q: nat)
    requires p < q < |Spread(records, max)|
    ensures var picks := Spread(records, max);
            || Turn(picks, p) < Turn(picks, q)
            || (Turn(picks, p) == Turn(picks, q)
                && SeenBefore(FirstRows(records), ChannelKey(picks[p]), ChannelKey(picks[q])))
  {
    var first, all, picks := FirstRows(records), Rotation(records), Spread(records, max);
    QueuesOneEach(first);
    RoundsInTurn(Channels(first), Queues(Channels(first), first));
    assert InTurn(Channels(first), all, p, q);
    CutAfter(all, |picks|);
    TurnOfFront(picks, all[|picks|..], p);
    TurnOfFront(picks, all[|picks|..], q);
    TurnIsTurn(picks, p);
    TurnIsTurn(picks, q);
    if TurnIn(picks, p) == TurnIn(picks, q) {
      KeysSeenBefore(first, ChannelKey(picks[p]), ChannelKey(picks[q]));
    }
  }

  lemma KeysSeenBefore(rows: seq<Doc>, k: string, l: string)
    requires KeyBefore(Channels(rows), k, l)
    ensures SeenBefore(rows, k, l)
  {
    var a, b :| 0 <= a < b < |Channels(rows)| && Channels(rows)[a] == k && Channels(rows)[b] == l;
    ChannelsInOrder(rows, a, b);
  }
}
