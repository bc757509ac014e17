/**
  The evidence book of packages/core/src/synthesise.ts: records spread over channels in rotation,
  an ordinal for each, and the way back from a cited ordinal to its receipt.
 */
module Spread {
  import opened Basics
  import opened Corpus
  import opened Sorting
  import opened Text
  import D = Decimal

  // ---- What the rotation computes ----

  function Clamp(x: int, n: nat): nat { if x < 0 then 0 else if x > n then n else x }

  /** Channels in order of first appearance, as a `Map` iterates. */
  function Channels(records: seq<Doc>): seq<string>
  {
    if records == [] then []
    else
      var rest, k := Channels(records[..|records| - 1]), ChannelKey(records[|records| - 1]);
      if k in rest then rest else rest + [k]
  }

  /** The records of one channel, in order. */
  function InChannel(k: string, records: seq<Doc>): seq<Doc>
  {
    if records == [] then []
    else
      var rest, last := InChannel(k, records[..|records| - 1]), records[|records| - 1];
      if ChannelKey(last) == k then rest + [last] else rest
  }

  const ByScore: Doc -> int := (d: Doc) => -d.score

  /** A channel's records best first, equal scores in the caller's order. */
  function Ranked(k: string, records: seq<Doc>): seq<Doc> { Sort(ByScore, InChannel(k, records)) }

  function Queues(keys: seq<string>, records: seq<Doc>): seq<seq<Doc>>
  {
    if keys == [] then [] else [Ranked(keys[0], records)] + Queues(keys[1..], records)
  }

  function Head(queue: seq<Doc>): seq<Doc> { if queue == [] then [] else [queue[0]] }

  function Heads(queues: seq<seq<Doc>>): seq<Doc>
  {
    if queues == [] then [] else Head(queues[0]) + Heads(queues[1..])
  }

  function Tail(queue: seq<Doc>): seq<Doc> { if queue == [] then [] else queue[1..] }

  lemma HeadThenTail(queue: seq<Doc>)
    ensures Head(queue) + Tail(queue) == queue && |Head(queue)| <= 1
    ensures Head(queue) == [] <==> queue == []
  {
  }

  function Tails(queues: seq<seq<Doc>>): seq<seq<Doc>>
  {
    if queues == [] then [] else [Tail(queues[0])] + Tails(queues[1..])
  }

  function Total(queues: seq<seq<Doc>>): nat { if queues == [] then 0 else |queues[0]| + Total(queues[1..]) }

  lemma {:induction false} HeadsAndTails(queues: seq<seq<Doc>>)
    ensures |Heads(queues)| + Total(Tails(queues)) == Total(queues)
    ensures |Tails(queues)| == |queues|
    ensures forall i :: 0 <= i < |queues| ==> Tails(queues)[i] == Tail(queues[i])
    ensures Heads(queues) == [] ==> forall i :: 0 <= i < |queues| ==> queues[i] == []
  {
    if queues != [] {
      HeadsAndTails(queues[1..]);
      assert Tails(queues)[1..] == Tails(queues[1..]);
    }
  }

  /** One from each queue that has any, again and again. */
  function Rounds(queues: seq<seq<Doc>>): seq<Doc>
    decreases Total(queues)
  {
    HeadsAndTails(queues);
    if Heads(queues) == [] then [] else Heads(queues) + Rounds(Tails(queues))
  }

  function Rotation(records: seq<Doc>): seq<Doc>
  {
    var first := FirstRows(records);
    Rounds(Queues(Channels(first), first))
  }

  function Spread(records: seq<Doc>, max: int): seq<Doc>
  {
    Rotation(records)[..Clamp(max, |Rotation(records)|)]
  }

  // ---- The loops ----

  lemma OneMoreRecord(records: seq<Doc>, d: Doc)
    ensures Channels(records + [d])
         == if ChannelKey(d) in Channels(records) then Channels(records) else Channels(records) + [ChannelKey(d)]
    ensures forall k :: InChannel(k, records + [d]) ==
                        (if k == ChannelKey(d) then InChannel(k, records) + [d] else InChannel(k, records))
  {
    assert (records + [d])[..|records|] == records;
  }

  /** Channels in order, and the records each has so far. */
  ghost predicate Grouped(keys: seq<string>, queues: map<string, seq<Doc>>, records: seq<Doc>)
  {
    && keys == Channels(records)
    && (forall k :: k in queues <==> k in keys)
    && (forall k :: k in queues ==> queues[k] == InChannel(k, records))
  }

  /** A record joins its channel's queue, or opens one. */
  method Enqueue(keys: seq<string>, queues: map<string, seq<Doc>>, record: Doc, ghost records: seq<Doc>)
    returns (keys': seq<string>, queues': map<string, seq<Doc>>)
    requires Grouped(keys, queues, records)
    ensures Grouped(keys', queues', records + [record])
  {
    OneMoreRecord(records, record);
    var key := ChannelKey(record);
    if key in queues {
      keys', queues' := keys, queues[key := queues[key] + [record]];
    } else {
      NothingInChannel(key, records);
      keys', queues' := keys + [key], queues[key := [record]];
    }
  }

  /** The grouping loop: one row a receipt, queued by channel. */
  method Group(records: seq<Doc>) returns (keys: seq<string>, queues: map<string, seq<Doc>>)
    ensures Grouped(keys, queues, FirstRows(records))
  {
    keys, queues := [], map[];
    var seen: set<string> := {};
    ghost var first: seq<Doc> := [];
    for i := 0 to |records|
      invariant first == FirstRows(records[..i]) && seen == Receipts(first)
      invariant Grouped(keys, queues, first)
    {
      var record := records[i];
      assert records[..i + 1] == records[..i] + [record];
      NextRow(records[..i], record);
      if record.receiptId !in seen {
        seen := seen + {record.receiptId};
        keys, queues := Enqueue(keys, queues, record, first);
        first := first + [record];
      }
    }
    assert records[..|records|] == records;
  }

  lemma {:induction false} NothingInChannel(k: string, records: seq<Doc>)
    requires k !in Channels(records)
    ensures InChannel(k, records) == []
  {
    if records != [] {
      NothingInChannel(k, records[..|records| - 1]);
    }
  }

  lemma {:induction false} HeadsAppend(xs: seq<seq<Doc>>, ys: seq<seq<Doc>>)
    ensures Heads(xs + ys) == Heads(xs) + Heads(ys)
  {
    if xs == [] {
      assert xs + ys == ys;
    } else {
      assert (xs + ys)[1..] == xs[1..] + ys;
      HeadsAppend(xs[1..], ys);
    }
  }

  lemma HeadsOneMore(queues: seq<seq<Doc>>, i: nat)
    requires i < |queues|
    ensures Heads(queues[..i + 1]) == Heads(queues[..i]) + Head(queues[i])
  {
    assert queues[..i + 1] == queues[..i] + [queues[i]];
    HeadsAppend(queues[..i], [queues[i]]);
    assert Heads([queues[i]]) == Head(queues[i]);
  }

  /** A round that ran to its end. */
  lemma RoundDone(queues: seq<seq<Doc>>)
    ensures Rounds(queues) == Heads(queues) + Rounds(Tails(queues))
    ensures Heads(queues) == [] ==> Rounds(queues) == []
  {
    HeadsAndTails(queues);
    if Heads(queues) == [] {
      assert Tails(queues) == queues;
    }
  }

  lemma HeadsOfPrefix(queues: seq<seq<Doc>>, i: nat)
    requires i <= |queues|
    ensures Heads(queues[..i]) <= Heads(queues)
  {
    CutAfter(queues, i);
    HeadsAppend(queues[..i], queues[i..]);
  }

  /** The first `i` queues have lost their heads. */
  predicate TailedTo(pool: seq<seq<Doc>>, queues: seq<seq<Doc>>, i: nat)
  {
    && i <= |pool| == |queues|
    && forall j :: 0 <= j < |pool| ==> pool[j] == if j < i then Tail(queues[j]) else queues[j]
  }

  lemma TailedOneMore(pool: seq<seq<Doc>>, queues: seq<seq<Doc>>, i: nat)
    requires TailedTo(pool, queues, i) && i < |pool|
    ensures pool[i] == queues[i] && TailedTo(pool[i := Tail(pool[i])], queues, i + 1)
    ensures pool[i] == [] ==> pool[i := Tail(pool[i])] == pool
  {
  }

  lemma AllTailed(pool: seq<seq<Doc>>, queues: seq<seq<Doc>>)
    requires TailedTo(pool, queues, |queues|)
    ensures pool == Tails(queues)
  {
    HeadsAndTails(queues);
  }

  /** A turn ends after all queues, or with enough. */
  lemma TurnEnds(queues: seq<seq<Doc>>, base: seq<Doc>, taken: seq<Doc>, i: nat, max: int)
    requires i <= |queues| && taken == Heads(queues[..i])
    requires |base| < max && |base + taken| <= max && (i == |queues| || |base + taken| == max)
    ensures base + taken == (base + Heads(queues))[..Min(max, |base + Heads(queues)|)]
    ensures taken == [] <==> Heads(queues) == []
  {
    HeadsOfPrefix(queues, i);
    WholePrefix(queues);
  }

  /** One turn of the rotation: the head of each queue, until there are `max`. */
  method TakeRound(queues: seq<seq<Doc>>, base: seq<Doc>, max: int)
    returns (pool: seq<seq<Doc>>, picked: seq<Doc>, drained: bool)
    requires |base| < max
    ensures picked == (base + Heads(queues))[..Min(max, |base + Heads(queues)|)]
    ensures |picked| < max ==> pool == Tails(queues)
    ensures drained <==> Heads(queues) == []
  {
    pool, picked, drained := queues, base, true;
    ghost var taken: seq<Doc> := [];
    var i := 0;
    while i < |pool|
      invariant 0 <= i <= |pool| && TailedTo(pool, queues, i)
      invariant taken == Heads(queues[..i])
      invariant picked == base + taken && |picked| <= max
      invariant drained <==> taken == []
    {
      if |picked| >= max {
        break;
      }
      HeadsOneMore(queues, i);
      TailedOneMore(pool, queues, i);
      if pool[i] != [] {
        var next := pool[i][0];
        Associative(base, taken, [next]);
        taken := taken + [next];
        picked := picked + [next];
        pool := pool[i := pool[i][1..]];
        drained := false;
      } else {
        assert taken + [] == taken;
      }
      i := i + 1;
    }
    TurnEnds(queues, base, taken, i, max);
    if i == |queues| {
      AllTailed(pool, queues);
    }
  }

  lemma RoundOfAll(all: seq<Doc>, base: seq<Doc>, heads: seq<Doc>, rest: seq<Doc>, max: nat)
    requires base + (heads + rest) == all
    ensures var picked := (base + heads)[..Min(max, |base + heads|)];
            picked <= all && (|picked| < max ==> picked + rest == all)
  {
    Associative(base, heads, rest);
  }

  /** The rotation loop. */
  method Rotate(queues: seq<seq<Doc>>, max: int) returns (picked: seq<Doc>)
    ensures picked == Rounds(queues)[..Clamp(max, |Rounds(queues)|)]
  {
    picked := [];
    ghost var all := Rounds(queues);
    var pool, drained := queues, false;
    while |picked| < max && !drained
      invariant picked <= all && (|picked| <= max || picked == [])
      invariant |picked| < max ==> picked + Rounds(pool) == all
      invariant drained && |picked| < max ==> picked == all
      decreases |all| - |picked| + if drained then 0 else 1
    {
      RoundDone(pool);
      RoundOfAll(all, picked, Heads(pool), Rounds(Tails(pool)), max);
      pool, picked, drained := TakeRound(pool, picked, max);
    }
  }

  /** `spreadAcrossChannels`. */
  method SpreadAcrossChannels(records: seq<Doc>, max: int) returns (picked: seq<Doc>)
    ensures picked == Spread(records, max)
  {
    var keys, queues := Group(records);
    var pool := Rank(keys, queues, FirstRows(records));
    picked := Rotate(pool, max);
  }

  /** The sorting loop. */
  method Rank(keys: seq<string>, queues: map<string, seq<Doc>>, ghost first: seq<Doc>) returns (pool: seq<seq<Doc>>)
    requires Grouped(keys, queues, first)
    ensures pool == Queues(keys, first)
  {
    pool := [];
    for i := 0 to |keys|
      invariant pool + Queues(keys[i..], first) == Queues(keys, first)
    {
      assert keys[i] in keys && keys[i..][0] == keys[i] && keys[i..][1..] == keys[i + 1..];
      var ranked := Sort(ByScore, queues[keys[i]]);
      Associative(pool, [ranked], Queues(keys[i + 1..], first));
      pool := pool + [ranked];
    }
    assert pool + Queues([], first) == pool;
  }

  // ---- What the rotation guarantees ----

  lemma {:induction false} InChannelAppend(k: string, xs: seq<Doc>, ys: seq<Doc>)
    ensures InChannel(k, xs + ys) == InChannel(k, xs) + InChannel(k, ys)
  {
    if ys == [] {
      assert xs + ys == xs;
    } else {
      assert (xs + ys)[..|xs + ys| - 1] == xs + ys[..|ys| - 1];
      InChannelAppend(k, xs, ys[..|ys| - 1]);
    }
  }

  /** Queue `i` holds records of channel `keys[i]`, and no channel has two queues. */
  predicate OneQueueEach(keys: seq<string>, queues: seq<seq<Doc>>)
  {
    && |keys| == |queues|
    && (forall i, j :: 0 <= i < j < |keys| ==> keys[i] != keys[j])
    && (forall i :: 0 <= i < |keys| ==> AllIn(keys[i], queues[i]))
  }

  predicate AllIn(k: string, records: seq<Doc>)
  {
    forall d :: d in records ==> ChannelKey(d) == k
  }

  lemma HeadInChannel(k: string, key: string, queue: seq<Doc>)
    requires AllIn(key, queue)
    ensures InChannel(k, Head(queue)) == if k == key then Head(queue) else []
  {
    if queue != [] {
      assert queue[0] in queue && Head(queue)[..0] == [];
    }
  }

  lemma OtherQueues(keys: seq<string>, queues: seq<seq<Doc>>)
    requires OneQueueEach(keys, queues) && keys != []
    ensures OneQueueEach(keys[1..], queues[1..]) && keys[0] !in keys[1..]
  {
  }

  lemma {:induction false} HeadsInChannel(keys: seq<string>, queues: seq<seq<Doc>>, i: nat)
    requires OneQueueEach(keys, queues) && i < |keys|
    ensures InChannel(keys[i], Heads(queues)) == Head(queues[i])
  {
    OtherQueues(keys, queues);
    HeadInChannel(keys[i], keys[0], queues[0]);
    InChannelAppend(keys[i], Head(queues[0]), Heads(queues[1..]));
    if i > 0 {
      HeadsInChannel(keys[1..], queues[1..], i - 1);
    } else {
      NotInHeads(keys[0], keys[1..], queues[1..]);
    }
  }

  lemma {:induction false} NotInHeads(k: string, keys: seq<string>, queues: seq<seq<Doc>>)
    requires OneQueueEach(keys, queues) && k !in keys
    ensures InChannel(k, Heads(queues)) == []
  {
    if queues != [] {
      assert keys[0] in keys;
      HeadInChannel(k, keys[0], queues[0]);
      InChannelAppend(k, Head(queues[0]), Heads(queues[1..]));
      NotInHeads(k, keys[1..], queues[1..]);
    }
  }

  lemma TailsOneQueueEach(keys: seq<string>, queues: seq<seq<Doc>>)
    requires OneQueueEach(keys, queues)
    ensures OneQueueEach(keys, Tails(queues))
  {
    HeadsAndTails(queues);
    forall i | 0 <= i < |keys| ensures AllIn(keys[i], Tails(queues)[i]) {
      assert AllIn(keys[i], queues[i]);
    }
  }

  /** The rotation takes each channel's records in that channel's own order. */
  lemma {:induction false} RoundsInChannel(keys: seq<string>, queues: seq<seq<Doc>>, i: nat)
    requires OneQueueEach(keys, queues) && i < |keys|
    ensures InChannel(keys[i], Rounds(queues)) == queues[i]
    decreases Total(queues)
  {
    HeadsAndTails(queues);
    RoundDone(queues);
    HeadThenTail(queues[i]);
    if Heads(queues) != [] {
      TailsOneQueueEach(keys, queues);
      HeadsInChannel(keys, queues, i);
      RoundsInChannel(keys, Tails(queues), i);
      InChannelAppend(keys[i], Heads(queues), Rounds(Tails(queues)));
    }
  }

  lemma PrefixInChannel(k: string, all: seq<Doc>, part: seq<Doc>)
    requires part <= all
    ensures InChannel(k, part) <= InChannel(k, all)
  {
    assert all == part + all[|part|..];
    InChannelAppend(k, part, all[|part|..]);
  }

  /** `i` is at most one pick ahead of `j`, or `j` has none left. */
  predicate Fair(keys: seq<string>, queues: seq<seq<Doc>>, i: nat, j: nat, picked: seq<Doc>)
    requires i < |keys| && j < |keys| == |queues|
  {
    || |InChannel(keys[i], picked)| <= |InChannel(keys[j], picked)| + 1
    || InChannel(keys[j], picked) == queues[j]
  }

  lemma FairInFirstRound(keys: seq<string>, queues: seq<seq<Doc>>, i: nat, j: nat, picked: seq<Doc>)
    requires OneQueueEach(keys, queues) && i < |keys| && j < |keys| && picked <= Heads(queues)
    ensures Fair(keys, queues, i, j, picked)
  {
    HeadsInChannel(keys, queues, i);
    PrefixInChannel(keys[i], Heads(queues), picked);
  }

  lemma FairAfterRound(keys: seq<string>, queues: seq<seq<Doc>>, i: nat, j: nat, rest: seq<Doc>)
    requires OneQueueEach(keys, queues) && i < |keys| && j < |keys|
    requires |Tails(queues)| == |keys| && Fair(keys, Tails(queues), i, j, rest)
    requires rest <= Rounds(Tails(queues))
    ensures Fair(keys, queues, i, j, Heads(queues) + rest)
  {
    HeadsAndTails(queues);
    HeadThenTail(queues[i]);
    HeadThenTail(queues[j]);
    HeadsInChannel(keys, queues, i);
    HeadsInChannel(keys, queues, j);
    InChannelAppend(keys[i], Heads(queues), rest);
    InChannelAppend(keys[j], Heads(queues), rest);
    TailsOneQueueEach(keys, queues);
    RoundsInChannel(keys, Tails(queues), j);
    PrefixInChannel(keys[j], Rounds(Tails(queues)), rest);
  }

  /** At every point of the rotation a channel is at most one pick ahead of one that still has some. */
  lemma {:induction false} RoundsAreFair(keys: seq<string>, queues: seq<seq<Doc>>, i: nat, j: nat, picked: seq<Doc>)
    requires OneQueueEach(keys, queues) && i < |keys| && j < |keys| && picked <= Rounds(queues)
    ensures Fair(keys, queues, i, j, picked)
    decreases Total(queues)
  {
    HeadsAndTails(queues);
    RoundDone(queues);
    var rest := BeyondPrefix(Heads(queues), Rounds(Tails(queues)), picked);
    if |picked| <= |Heads(queues)| {
      FairInFirstRound(keys, queues, i, j, picked);
    } else {
      TailsOneQueueEach(keys, queues);
      RoundsAreFair(keys, Tails(queues), i, j, rest);
      FairAfterRound(keys, queues, i, j, rest);
    }
  }

  lemma {:induction false} ChannelsDistinct(records: seq<Doc>)
    ensures forall i, j :: 0 <= i < j < |Channels(records)| ==> Channels(records)[i] != Channels(records)[j]
    ensures forall d :: d in records ==> ChannelKey(d) in Channels(records)
  {
    if records != [] {
      var front := records[..|records| - 1];
      ChannelsDistinct(front);
      assert records == front + [records[|records| - 1]];
    }
  }

  lemma {:induction false} InChannelSound(k: string, records: seq<Doc>)
    ensures AllIn(k, InChannel(k, records))
  {
    if records != [] {
      InChannelSound(k, records[..|records| - 1]);
    }
  }

  lemma RankedSound(k: string, records: seq<Doc>)
    ensures AllIn(k, Ranked(k, records)) && multiset(Ranked(k, records)) == multiset(InChannel(k, records))
  {
    InChannelSound(k, records);
    Stable(ByScore, InChannel(k, records));
    forall d | d in Ranked(k, records) ensures ChannelKey(d) == k {
      assert d in multiset(Ranked(k, records));
    }
  }

  lemma {:induction false} QueuesByKey(keys: seq<string>, records: seq<Doc>)
    ensures |Queues(keys, records)| == |keys|
    ensures forall i :: 0 <= i < |keys| ==> Queues(keys, records)[i] == Ranked(keys[i], records)
  {
    if keys != [] {
      QueuesByKey(keys[1..], records);
    }
  }

  lemma QueuesOneEach(records: seq<Doc>)
    ensures OneQueueEach(Channels(records), Queues(Channels(records), records))
  {
    var keys := Channels(records);
    ChannelsDistinct(records);
    QueuesByKey(keys, records);
    forall i | 0 <= i < |keys| ensures AllIn(keys[i], Queues(keys, records)[i]) {
      RankedSound(keys[i], records);
    }
  }

  // ---- Nothing lost, nothing twice ----

  function Pooled(queues: seq<seq<Doc>>): multiset<Doc>
  {
    if queues == [] then multiset{} else multiset(queues[0]) + Pooled(queues[1..])
  }

  lemma {:induction false} PooledRound(queues: seq<seq<Doc>>)
    ensures Pooled(queues) == multiset(Heads(queues)) + Pooled(Tails(queues))
  {
    if queues != [] {
      var head, tail, rest := Head(queues[0]), Tail(queues[0]), queues[1..];
      PooledRound(rest);
      HeadThenTail(queues[0]);
      Apart(head, tail);
      Apart(head, Heads(rest));
      PooledFirst(tail, Tails(rest));
      Regroup(multiset(head), multiset(tail), multiset(Heads(rest)), Pooled(Tails(rest)));
    }
  }

  lemma Apart(xs: seq<Doc>, ys: seq<Doc>)
    ensures multiset(xs + ys) == multiset(xs) + multiset(ys)
  {
  }

  lemma Regroup(a: multiset<Doc>, b: multiset<Doc>, c: multiset<Doc>, d: multiset<Doc>)
    ensures a + b + (c + d) == a + c + (b + d)
  {
  }

  lemma PooledFirst(first: seq<Doc>, rest: seq<seq<Doc>>)
    ensures Pooled([first] + rest) == multiset(first) + Pooled(rest)
  {
    assert ([first] + rest)[1..] == rest;
  }

  lemma {:induction false} RoundsPool(queues: seq<seq<Doc>>)
    ensures multiset(Rounds(queues)) == Pooled(queues)
    decreases Total(queues)
  {
    HeadsAndTails(queues);
    RoundDone(queues);
    PooledRound(queues);
    if Heads(queues) != [] {
      RoundsPool(Tails(queues));
    } else {
      EmptyPool(queues);
    }
  }

  lemma {:induction false} EmptyPool(queues: seq<seq<Doc>>)
    requires forall i :: 0 <= i < |queues| ==> queues[i] == []
    ensures Pooled(queues) == multiset{}
  {
    if queues != [] {
      EmptyPool(queues[1..]);
    }
  }

  /** The records whose channel is among these. */
  function Among(keys: seq<string>, records: seq<Doc>): seq<Doc>
  {
    if records == [] then []
    else
      var rest, last := Among(keys, records[..|records| - 1]), records[|records| - 1];
      if ChannelKey(last) in keys then rest + [last] else rest
  }

  lemma {:induction false} AmongSplits(k: string, keys: seq<string>, records: seq<Doc>)
    requires k !in keys
    ensures multiset(Among([k] + keys, records)) == multiset(InChannel(k, records)) + multiset(Among(keys, records))
  {
    if records != [] {
      AmongSplits(k, keys, records[..|records| - 1]);
    }
  }

  lemma {:induction false} AmongAll(keys: seq<string>, records: seq<Doc>)
    ensures (forall d :: d in records ==> ChannelKey(d) in keys) ==> Among(keys, records) == records
    ensures keys == [] ==> Among(keys, records) == []
  {
    if records != [] {
      var front, last := records[..|records| - 1], records[|records| - 1];
      AmongAll(keys, front);
      assert records == front + [last];
    }
  }

  lemma {:induction false} QueuesPool(keys: seq<string>, records: seq<Doc>)
    requires forall i, j :: 0 <= i < j < |keys| ==> keys[i] != keys[j]
    ensures Pooled(Queues(keys, records)) == multiset(Among(keys, records))
  {
    if keys == [] {
      AmongAll(keys, records);
    } else {
      QueuesPool(keys[1..], records);
      RankedSound(keys[0], records);
      AmongSplits(keys[0], keys[1..], records);
      assert keys == [keys[0]] + keys[1..];
      PooledFirst(Ranked(keys[0], records), Queues(keys[1..], records));
    }
  }

  /** The whole rotation is a rearrangement of the first rows. */
  lemma RotationRearranges(records: seq<Doc>)
    ensures multiset(Rotation(records)) == multiset(FirstRows(records))
    ensures |Rotation(records)| == |FirstRows(records)|
  {
    var first := FirstRows(records);
    var keys := Channels(first);
    ChannelsDistinct(first);
    AmongAll(keys, first);
    QueuesPool(keys, first);
    RoundsPool(Queues(keys, first));
    assert |multiset(Rotation(records))| == |multiset(first)|;
  }

  lemma Twice<T>(xs: seq<T>, i: nat, j: nat)
    requires i < j < |xs| && xs[i] == xs[j]
    ensures multiset(xs)[xs[i]] >= 2
  {
    assert xs == xs[..j] + [xs[j]] + xs[j + 1..];
    assert xs[i] in xs[..j];
  }

  lemma {:induction false} AtMostOnce(xs: seq<Doc>, d: Doc)
    requires DistinctReceipts(xs)
    ensures multiset(xs)[d] <= 1
  {
    if xs != [] {
      var front, last := xs[..|xs| - 1], xs[|xs| - 1];
      AtMostOnce(front, d);
      assert xs == front + [last];
      assert d == last ==> d !in front;
    }
  }

  lemma RearrangingKeepsReceiptsDistinct(xs: seq<Doc>, ys: seq<Doc>)
    requires DistinctReceipts(xs) && multiset(xs) == multiset(ys)
    ensures DistinctReceipts(ys)
  {
    forall i, j | 0 <= i < j < |ys| ensures ys[i].receiptId != ys[j].receiptId {
      if ys[i] == ys[j] {
        Twice(ys, i, j);
        AtMostOnce(xs, ys[i]);
      } else {
        assert ys[i] in multiset(ys) && ys[j] in multiset(ys);
        var a :| 0 <= a < |xs| && xs[a] == ys[i];
        var b :| 0 <= b < |xs| && xs[b] == ys[j];
        assert a < b || b < a;
      }
    }
  }

  lemma PrefixOfDistinct(all: seq<Doc>, part: seq<Doc>)
    requires part <= all && DistinctReceipts(all)
    ensures DistinctReceipts(part) && multiset(part) <= multiset(all)
  {
    assert all == part + all[|part|..];
  }

  /** The selection has as many records as asked for, or as there are receipts, and no receipt twice. */
  lemma SpreadTakesReceiptsOnce(records: seq<Doc>, max: int)
    ensures |Spread(records, max)| == Min(Max(max, 0), |FirstRows(records)|)
    ensures DistinctReceipts(Spread(records, max))
    ensures multiset(Spread(records, max)) <= multiset(FirstRows(records))
  {
    RotationRearranges(records);
    FirstRowsAreRows(records);
    RearrangingKeepsReceiptsDistinct(FirstRows(records), Rotation(records));
    PrefixOfDistinct(Rotation(records), Spread(records, max));
  }

  lemma RotationInChannel(records: seq<Doc>, k: string) returns (i: nat)
    requires k in Channels(FirstRows(records))
    ensures var first := FirstRows(records);
            var keys, queues := Channels(first), Queues(Channels(first), first);
            && i < |keys| && keys[i] == k && OneQueueEach(keys, queues) && queues[i] == Ranked(k, first)
  {
    var first := FirstRows(records);
    QueuesOneEach(first);
    QueuesByKey(Channels(first), first);
    i :| 0 <= i < |Channels(first)| && Channels(first)[i] == k;
  }

  /** Every channel's picks are the best of that channel, in order. */
  lemma SpreadTakesTheBest(records: seq<Doc>, max: int, k: string)
    requires k in Channels(FirstRows(records))
    ensures InChannel(k, Spread(records, max)) <= Ranked(k, FirstRows(records))
  {
    var first := FirstRows(records);
    var i := RotationInChannel(records, k);
    RoundsInChannel(Channels(first), Queues(Channels(first), first), i);
    PrefixInChannel(k, Rotation(records), Spread(records, max));
  }

  /** No channel is more than one pick ahead of another, unless the other has been used up. */
  lemma SpreadIsFair(records: seq<Doc>, max: int, k: string, l: string)
    requires k in Channels(FirstRows(records)) && l in Channels(FirstRows(records))
    ensures var picked := Spread(records, max);
            || |InChannel(k, picked)| <= |InChannel(l, picked)| + 1
            || InChannel(l, picked) == Ranked(l, FirstRows(records))
  {
    var first := FirstRows(records);
    var i := RotationInChannel(records, k);
    var j := RotationInChannel(records, l);
    RoundsAreFair(Channels(first), Queues(Channels(first), first), i, j, Spread(records, max));
  }

  // ---- The book ----

  const POST: string := "post"

  /** `PREFIX[kind]` after every kind but a post has become a comment. */
  function Prefix(d: Doc): char { if d.kind == POST then 'p' else 'c' }

  function OfKind(prefix: char, records: seq<Doc>): nat
  {
    if records == [] then 0
    else OfKind(prefix, records[..|records| - 1]) + if Prefix(records[|records| - 1]) == prefix then 1 else 0
  }

  /** The name of record `i`: its kind's letter and how many of that kind came before it. */
  function Ordinal(records: seq<Doc>, i: nat): string
    requires i < |records|
  {
    [Prefix(records[i])] + D.Decimal(OfKind(Prefix(records[i]), records[..i]))
  }

  /** `s.slice(0, n)`, which counts from the end when `n` is negative. */
  function SliceTo(s: string, n: int): string
  {
    if n >= 0 then s[..Min(n, |s|)] else s[..Max(|s| + n, 0)]
  }

  function Shown(body: string, maxChars: int): string
  {
    if |body| > maxChars then SliceTo(body, maxChars - 3) + "..." else body
  }

  function Length(maxChars: int): Doc -> int
  {
    (d: Doc) => |Shown(Clean(d.text), maxChars)|
  }

  function CutShort(maxChars: int): Doc -> int
  {
    (d: Doc) => if |Clean(d.text)| > maxChars then 1 else 0
  }

  function Signed(n: int): string { if n < 0 then "-" + D.Decimal(-n) else D.Decimal(n) }

  /** Where a record was said: its source and its channel, as far as it has them. */
  function Where(d: Doc): string
  {
    if d.source == "" then d.channel else if d.channel == "" then d.source else d.source + " " + d.channel
  }

  function Points(score: int): string { if score == 0 then "" else ", " + Signed(score) + " points" }

  datatype Line = Line(ordinal: string, shown: string, text: string)

  /** What is printed after the ordinal. */
  function Told(d: Doc, shown: string): string { "[" + Where(d) + After(d, shown) }

  function After(d: Doc, shown: string): string { Points(d.score) + "] " + shown }

  function LineOf(ordinal: string, d: Doc, shown: string): Line { Line(ordinal, shown, ordinal + " " + Told(d, shown)) }

  datatype Book = Book(lines: seq<Line>, byOrdinal: map<string, string>, truncated: int, characters: int)

  /** Line `i` names record `i`, and that name leads back to its receipt. */
  predicate LineFor(maxChars: int, picked: seq<Doc>, book: Book, i: nat)
    requires i < |picked| == |book.lines|
  {
    && book.lines[i] == LineOf(Ordinal(picked, i), picked[i], Shown(Clean(picked[i].text), maxChars))
    && book.lines[i].ordinal in book.byOrdinal
    && book.byOrdinal[book.lines[i].ordinal] == picked[i].receiptId
  }

  ghost predicate IsBook(maxChars: int, picked: seq<Doc>, book: Book)
  {
    && |book.lines| == |picked|
    && (forall i :: 0 <= i < |picked| ==> LineFor(maxChars, picked, book, i))
    && (forall o :: o in book.byOrdinal ==> exists i :: 0 <= i < |picked| && book.lines[i].ordinal == o)
    && book.truncated == Sum(CutShort(maxChars), picked)
    && book.characters == Sum(Length(maxChars), picked)
  }

  lemma {:induction false} OfKindGrows(prefix: char, records: seq<Doc>, i: nat, j: nat)
    requires i <= j <= |records|
    ensures OfKind(prefix, records[..i]) <= OfKind(prefix, records[..j])
  {
    if i < j {
      OfKindGrows(prefix, records, i, j - 1);
      assert records[..j][..j - 1] == records[..j - 1];
    }
  }

  /** No two records share an ordinal. */
  lemma OrdinalsDistinct(records: seq<Doc>, i: nat, j: nat)
    requires i < j < |records|
    ensures Ordinal(records, i) != Ordinal(records, j)
  {
    var p := Prefix(records[i]);
    if Prefix(records[j]) == p {
      OfKindGrows(p, records, i + 1, j);
      assert records[..i + 1][..i] == records[..i];
      D.Injective(OfKind(p, records[..i]), OfKind(p, records[..j]));
      assert Ordinal(records, i)[1..] == D.Decimal(OfKind(p, records[..i]));
      assert Ordinal(records, j)[1..] == D.Decimal(OfKind(p, records[..j]));
    } else {
      assert Ordinal(records, i)[0] != Ordinal(records, j)[0];
    }
  }

  lemma OrdinalOfPrefix(records: seq<Doc>, d: Doc, i: nat)
    requires i < |records|
    ensures Ordinal(records + [d], i) == Ordinal(records, i)
  {
    assert (records + [d])[..i] == records[..i];
  }

  /** The book with one more line. */
  function WithLine(maxChars: int, book: Book, ordinal: string, d: Doc): Book
  {
    var body := Clean(d.text);
    var shown := Shown(body, maxChars);
    Book(book.lines + [LineOf(ordinal, d, shown)], book.byOrdinal[ordinal := d.receiptId],
         book.truncated + (if |body| > maxChars then 1 else 0), book.characters + |shown|)
  }

  lemma OldLineStands(maxChars: int, picked: seq<Doc>, book: Book, d: Doc, i: nat)
    requires i < |picked| == |book.lines| && LineFor(maxChars, picked, book, i)
    ensures var after := picked + [d];
            LineFor(maxChars, after, WithLine(maxChars, book, Ordinal(after, |picked|), d), i)
  {
    OrdinalOfPrefix(picked, d, i);
    OrdinalsDistinct(picked + [d], i, |picked|);
  }

  lemma BookGrows(maxChars: int, picked: seq<Doc>, book: Book, d: Doc)
    requires IsBook(maxChars, picked, book)
    ensures var after := picked + [d];
            IsBook(maxChars, after, WithLine(maxChars, book, Ordinal(after, |picked|), d))
  {
    var after := picked + [d];
    var book' := WithLine(maxChars, book, Ordinal(after, |picked|), d);
    forall i | 0 <= i < |after| ensures LineFor(maxChars, after, book', i) {
      if i < |picked| {
        OldLineStands(maxChars, picked, book, d, i);
      }
    }
    forall o | o in book'.byOrdinal ensures exists i :: 0 <= i < |after| && book'.lines[i].ordinal == o {
      if o == Ordinal(after, |picked|) {
        assert book'.lines[|picked|].ordinal == o;
      } else {
        var i :| 0 <= i < |picked| && book.lines[i].ordinal == o;
        assert book'.lines[i].ordinal == o;
      }
    }
    SumOneMore(CutShort(maxChars), picked, d);
    SumOneMore(Length(maxChars), picked, d);
  }

  lemma OneMoreOfKind(records: seq<Doc>, d: Doc)
    ensures Ordinal(records + [d], |records|) == [Prefix(d)] + D.Decimal(OfKind(Prefix(d), records))
    ensures forall p :: OfKind(p, records + [d]) == OfKind(p, records) + if Prefix(d) == p then 1 else 0
  {
    assert (records + [d])[..|records|] == records;
  }

  /** The record's name, and the counters after it. */
  method NextOrdinal(posts: nat, comments: nat, record: Doc, ghost before: seq<Doc>)
    returns (ordinal: string, posts': nat, comments': nat)
    requires posts == OfKind('p', before) && comments == OfKind('c', before)
    ensures ordinal == Ordinal(before + [record], |before|)
    ensures posts' == OfKind('p', before + [record]) && comments' == OfKind('c', before + [record])
  {
    OneMoreOfKind(before, record);
    posts', comments' := posts, comments;
    if record.kind == POST {
      ordinal, posts' := "p" + D.Decimal(posts), posts + 1;
    } else {
      ordinal, comments' := "c" + D.Decimal(comments), comments + 1;
    }
  }

  /** What the prompt shows. */
  function Block(lines: seq<Line>): string { Join(LineTexts(lines), "\n") }

  function LineTexts(lines: seq<Line>): seq<string>
  {
    seq(|lines|, i requires 0 <= i < |lines| => lines[i].text)
  }

  /** `buildEvidenceBook`. */
  method BuildEvidenceBook(records: seq<Doc>, maxRecords: int, maxChars: int)
    returns (book: Book, block: string)
    ensures IsBook(maxChars, Spread(records, maxRecords), book) && block == Block(book.lines)
  {
    var picked := SpreadAcrossChannels(records, maxRecords);
    book := Lines(picked, maxChars);
    block := Join(LineTexts(book.lines), "\n");
  }

  /** The book and the counters after these records. */
  ghost predicate Filled(maxChars: int, done: seq<Doc>, book: Book, posts: nat, comments: nat)
  {
    IsBook(maxChars, done, book) && posts == OfKind('p', done) && comments == OfKind('c', done)
  }

  /** The body of the loop. */
  method AddRecord(
      maxChars: int, book: Book, posts: nat, comments: nat, record: Doc, ghost done: seq<Doc>)
    returns (book': Book, posts': nat, comments': nat)
    requires Filled(maxChars, done, book, posts, comments)
    ensures Filled(maxChars, done + [record], book', posts', comments')
  {
    var ordinal;
    ordinal, posts', comments' := NextOrdinal(posts, comments, record, done);
    BookGrows(maxChars, done, book, record);
    book' := WithLine(maxChars, book, ordinal, record);
  }

  method EmptyBook(maxChars: int) returns (book: Book)
    ensures Filled(maxChars, [], book, 0, 0)
  {
    book := Book([], map[], 0, 0);
  }

  method Lines(picked: seq<Doc>, maxChars: int) returns (book: Book)
    ensures IsBook(maxChars, picked, book)
  {
    book := EmptyBook(maxChars);
    var posts, comments := 0, 0;
    for i := 0 to |picked|
      invariant Filled(maxChars, picked[..i], book, posts, comments)
    {
      book, posts, comments := AddRecord(maxChars, book, posts, comments, picked[i], picked[..i]);
      OneMore(picked, i);
    }
    WholePrefix(picked);
  }

  // ---- What is cited ----

  /** `byOrdinal.get(ordinal) ?? ordinal`. */
  function Resolved(book: Book, cited: string): string
  {
    if cited in book.byOrdinal then book.byOrdinal[cited] else cited
  }

  /** Each cited text, trimmed and unless it is empty, resolved. */
  function Translated(trim: string -> string, book: Book, cited: seq<string>): seq<string>
  {
    if cited == [] then []
    else (if trim(cited[0]) == "" then [] else [Resolved(book, trim(cited[0]))]) + Translated(trim, book, cited[1..])
  }

  /** How many of the cited texts say something. */
  function Said(trim: string -> string, cited: seq<string>): nat
  {
    if cited == [] then 0 else (if trim(cited[0]) == "" then 0 else 1) + Said(trim, cited[1..])
  }

  lemma {:induction false} TranslatedAppend(trim: string -> string, book: Book, xs: seq<string>, ys: seq<string>)
    ensures Translated(trim, book, xs + ys) == Translated(trim, book, xs) + Translated(trim, book, ys)
  {
    if xs == [] {
      assert xs + ys == ys;
    } else {
      var first := if trim(xs[0]) == "" then [] else [Resolved(book, trim(xs[0]))];
      assert (xs + ys)[0] == xs[0] && (xs + ys)[1..] == xs[1..] + ys;
      TranslatedAppend(trim, book, xs[1..], ys);
      Associative(first, Translated(trim, book, xs[1..]), Translated(trim, book, ys));
    }
  }

  lemma TranslatedAt(trim: string -> string, book: Book, cited: seq<string>, c: nat)
    requires c < |cited| && trim(cited[c]) != ""
    ensures |Translated(trim, book, cited)| == Said(trim, cited) > Said(trim, cited[..c])
    ensures Translated(trim, book, cited)[Said(trim, cited[..c])] == Resolved(book, trim(cited[c]))
  {
    TranslatedSaid(trim, book, cited);
    TranslatedSaid(trim, book, cited[..c]);
    TranslatedAppend(trim, book, cited[..c], cited[c..]);
    assert cited[..c] + cited[c..] == cited;
  }

  lemma {:induction false} TranslatedSaid(trim: string -> string, book: Book, cited: seq<string>)
    ensures |Translated(trim, book, cited)| == Said(trim, cited)
  {
    if cited != [] {
      TranslatedSaid(trim, book, cited[1..]);
    }
  }

  /** A cited line becomes that line's receipt, at the place of the citation among those that say something. */
  lemma CitedLineIsFound(maxChars: int, picked: seq<Doc>, book: Book,
      trim: string -> string, cited: seq<string>, c: nat, i: nat)
    requires IsBook(maxChars, picked, book) && c < |cited| && i < |picked|
    requires trim(cited[c]) == Ordinal(picked, i)
    ensures var found, at := Translated(trim, book, cited), Said(trim, cited[..c]);
            at < |found| == Said(trim, cited) && found[at] == picked[i].receiptId
  {
    assert LineFor(maxChars, picked, book, i);
    TranslatedAt(trim, book, cited, c);
  }

  /** Anything else is left as the model wrote it. */
  lemma UnknownPassesThrough(maxChars: int, picked: seq<Doc>, book: Book,
      trim: string -> string, cited: seq<string>, c: nat)
    requires IsBook(maxChars, picked, book) && c < |cited| && trim(cited[c]) != ""
    requires forall i :: 0 <= i < |picked| ==> trim(cited[c]) != Ordinal(picked, i)
    ensures var found, at := Translated(trim, book, cited), Said(trim, cited[..c]);
            at < |found| == Said(trim, cited) && found[at] == trim(cited[c])
  {
    TranslatedAt(trim, book, cited, c);
    forall i | 0 <= i < |picked| ensures book.lines[i].ordinal != trim(cited[c]) {
      assert LineFor(maxChars, picked, book, i);
    }
  }

  /** Two lines of a book never lead to the same receipt, so a claim cannot count one twice by citing both. */
  lemma LinesAreDistinctReceipts(
      maxChars: int, records: seq<Doc>, max: int, book: Book, i: nat, j: nat)
    requires IsBook(maxChars, Spread(records, max), book) && i < j < |book.lines|
    ensures book.lines[i].ordinal != book.lines[j].ordinal
    ensures Resolved(book, book.lines[i].ordinal) != Resolved(book, book.lines[j].ordinal)
  {
    var picked := Spread(records, max);
    SpreadTakesReceiptsOnce(records, max);
    OrdinalsDistinct(picked, i, j);
    assert LineFor(maxChars, picked, book, i) && LineFor(maxChars, picked, book, j);
  }
}
