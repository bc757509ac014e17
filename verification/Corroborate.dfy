/**
  Corroboration (packages/core/src/corroborate.ts): how many independent records stand behind a term,
  how many against it, and what may be said of it. A receipt counts once and a text counts once, on
  one side only.
 */
module Corroborate {
  import opened Basics
  import Sorting
  import opened Corpus

  const MIN_RECEIPTS: int := 3
  const MIN_CHANNELS_FOR_FINDING: int := 2

  datatype Tier = A | B | C | D

  type TierOf = string -> Tier

  /** Trimmed, with runs of white space made one blank; nothing more is assumed of it. */
  type TextKey = string -> string

  /** Where a name comes in the library's collation. */
  type Collation = string -> int

  datatype Basis = ReceiptCount | CrossTier | Attested | NoBasis

  datatype Verdict = Finding | Contested | Refuted | WeakSignal

  datatype Tiers = Tiers(a: nat, b: nat, c: nat, d: nat)

  datatype SourceSpread = SourceSpread(records: nat, channels: nat)

  datatype Corroboration = Corroboration(
    receiptIds: seq<string>, records: nat, channels: nat, sources: seq<(string, SourceSpread)>, tiers: Tiers,
    basis: Basis, refutingIds: seq<string>, refutingRecords: nat, refutingChannels: nat, verdict: Verdict)

  // ---- What counts ----

  /** The non-empty texts of some rows. */
  function Texts(key: TextKey, rows: seq<Doc>): set<string>
  {
    if rows == [] then {} else Texts(key, rows[..|rows| - 1]) + TextOf(key, rows[|rows| - 1])
  }

  function TextOf(key: TextKey, d: Doc): set<string> { if key(d.text) == "" then {} else {key(d.text)} }

  lemma {:induction false} TextsAre(key: TextKey, rows: seq<Doc>)
    ensures forall t :: t in Texts(key, rows) <==> exists d :: d in rows && t in TextOf(key, d)
  {
    if rows != [] {
      var front, last := rows[..|rows| - 1], rows[|rows| - 1];
      TextsAre(key, front);
      assert rows == front + [last];
      assert last in rows;
    }
  }

  /** A row with a text that has been heard already. */
  predicate Repeats(key: TextKey, heard: set<string>, d: Doc) { key(d.text) != "" && key(d.text) in heard }

  /** The rows that count: each textless one, and the first of every text that is not already taken. */
  function Counted(key: TextKey, taken: set<string>, rows: seq<Doc>): seq<Doc>
  {
    if rows == [] then []
    else
      var front, last := rows[..|rows| - 1], rows[|rows| - 1];
      var rest := Counted(key, taken, front);
      if Repeats(key, taken + Texts(key, front), last) then rest else rest + [last]
  }

  /** The rows of receipts that are not among these. */
  function Outside(receipts: set<string>, rows: seq<Doc>): seq<Doc>
  {
    if rows == [] then []
    else
      var rest, last := Outside(receipts, rows[..|rows| - 1]), rows[|rows| - 1];
      if last.receiptId in receipts then rest else rest + [last]
  }

  function Ids(rows: seq<Doc>): seq<string>
  {
    if rows == [] then [] else Ids(rows[..|rows| - 1]) + [rows[|rows| - 1].receiptId]
  }

  function ChannelKeys(rows: seq<Doc>): set<string>
  {
    if rows == [] then {} else ChannelKeys(rows[..|rows| - 1]) + {ChannelKey(rows[|rows| - 1])}
  }

  lemma {:induction false} ChannelKeysAre(rows: seq<Doc>)
    ensures forall k :: k in ChannelKeys(rows) <==> exists d :: d in rows && ChannelKey(d) == k
  {
    if rows != [] {
      var front, last := rows[..|rows| - 1], rows[|rows| - 1];
      ChannelKeysAre(front);
      assert rows == front + [last];
      assert last in rows;
    }
  }

  function Support(key: TextKey, records: seq<Doc>): seq<Doc> { Counted(key, {}, FirstRows(records)) }

  function Opponents(records: seq<Doc>, refuting: seq<Doc>): seq<Doc>
  {
    FirstRows(Outside(Receipts(FirstRows(records)), refuting))
  }

  function Opposition(key: TextKey, records: seq<Doc>, refuting: seq<Doc>): seq<Doc>
  {
    Counted(key, Texts(key, FirstRows(records)), Opponents(records, refuting))
  }

  function TierCount(tierOf: TierOf, t: Tier, rows: seq<Doc>): nat
  {
    if rows == [] then 0
    else TierCount(tierOf, t, rows[..|rows| - 1]) + if tierOf(rows[|rows| - 1].source) == t then 1 else 0
  }

  function InSource(source: string, rows: seq<Doc>): seq<Doc>
  {
    if rows == [] then []
    else
      var rest, last := InSource(source, rows[..|rows| - 1]), rows[|rows| - 1];
      if last.source == source then rest + [last] else rest
  }

  function ChannelNames(rows: seq<Doc>): set<string>
  {
    if rows == [] then {} else ChannelNames(rows[..|rows| - 1]) + {rows[|rows| - 1].channel}
  }

  lemma {:induction false} ChannelNamesAre(rows: seq<Doc>)
    ensures forall c :: c in ChannelNames(rows) <==> exists d :: d in rows && d.channel == c
  {
    if rows != [] {
      var front, last := rows[..|rows| - 1], rows[|rows| - 1];
      ChannelNamesAre(front);
      assert rows == front + [last];
      assert last in rows;
    }
  }

  function SpreadOf(source: string, rows: seq<Doc>): SourceSpread
  {
    SourceSpread(|Receipts(InSource(source, rows))|, |ChannelNames(InSource(source, rows))|)
  }

  function SourceSet(rows: seq<Doc>): set<string>
  {
    if rows == [] then {} else SourceSet(rows[..|rows| - 1]) + {rows[|rows| - 1].source}
  }

  // ---- What may be said ----

  function BasisOf(threshold: int, tiers: Tiers): Basis
  {
    var present := (if tiers.a > 0 then 1 else 0) + (if tiers.b > 0 then 1 else 0) + (if tiers.c > 0 then 1 else 0);
    if tiers.a + tiers.b + tiers.c >= threshold then ReceiptCount
    else if present >= 2 && (tiers.a > 0 || tiers.b > 0) then CrossTier
    else if tiers.a >= 2 then Attested
    else NoBasis
  }

  function VerdictOf(supported: bool, refuted: bool): Verdict
  {
    if supported then (if refuted then Contested else Finding) else if refuted then Refuted else WeakSignal
  }

  function TiersOf(tierOf: TierOf, rows: seq<Doc>): Tiers
  {
    Tiers(TierCount(tierOf, A, rows), TierCount(tierOf, B, rows), TierCount(tierOf, C, rows),
          TierCount(tierOf, D, rows))
  }

  predicate Supported(key: TextKey, tierOf: TierOf, threshold: int, floor: int, records: seq<Doc>)
  {
    var rows := Support(key, records);
    BasisOf(threshold, TiersOf(tierOf, rows)) != NoBasis && |ChannelKeys(rows)| >= floor
  }

  predicate IsRefuted(key: TextKey, threshold: int, floor: int, records: seq<Doc>, refuting: seq<Doc>)
  {
    var rows := Opposition(key, records, refuting);
    |rows| >= threshold && |ChannelKeys(rows)| >= floor
  }

  function Judged(
    key: TextKey, tierOf: TierOf, threshold: int, floor: int, records: seq<Doc>, refuting: seq<Doc>): Verdict
  {
    VerdictOf(Supported(key, tierOf, threshold, floor, records), IsRefuted(key, threshold, floor, records, refuting))
  }

  // ---- The loops ----

  lemma NextCounted(key: TextKey, taken: set<string>, rows: seq<Doc>, d: Doc)
    ensures Counted(key, taken, rows + [d])
         == if Repeats(key, taken + Texts(key, rows), d) then Counted(key, taken, rows)
            else Counted(key, taken, rows) + [d]
    ensures Texts(key, rows + [d]) == Texts(key, rows) + TextOf(key, d)
    ensures Ids(rows + [d]) == Ids(rows) + [d.receiptId]
    ensures Receipts(rows + [d]) == Receipts(rows) + {d.receiptId}
  {
    assert (rows + [d])[..|rows|] == rows;
  }

  lemma NextRowIn(source: string, rows: seq<Doc>, d: Doc)
    ensures InSource(source, rows + [d])
         == if d.source == source then InSource(source, rows) + [d] else InSource(source, rows)
    ensures Receipts(rows + [d]) == Receipts(rows) + {d.receiptId}
    ensures ChannelKeys(rows + [d]) == ChannelKeys(rows) + {ChannelKey(d)}
    ensures ChannelNames(rows + [d]) == ChannelNames(rows) + {d.channel}
    ensures SourceSet(rows + [d]) == SourceSet(rows) + {d.source}
  {
    assert (rows + [d])[..|rows|] == rows;
  }

  lemma NextOutside(receipts: set<string>, rows: seq<Doc>, d: Doc)
    ensures Outside(receipts, rows + [d])
         == if d.receiptId in receipts then Outside(receipts, rows) else Outside(receipts, rows) + [d]
  {
    assert (rows + [d])[..|rows|] == rows;
  }

  /** The distinct sources, in order of first appearance. */
  function Sources(rows: seq<Doc>): seq<string>
  {
    if rows == [] then []
    else
      var rest, s := Sources(rows[..|rows| - 1]), rows[|rows| - 1].source;
      if s in rest then rest else rest + [s]
  }

  predicate NoRepeat(xs: seq<string>) { forall i, j :: 0 <= i < j < |xs| ==> xs[i] != xs[j] }

  lemma {:induction false} SourcesAreSources(rows: seq<Doc>)
    ensures NoRepeat(Sources(rows)) && forall s :: s in Sources(rows) <==> s in SourceSet(rows)
  {
    if rows != [] {
      SourcesAreSources(rows[..|rows| - 1]);
      assert rows == rows[..|rows| - 1] + [rows[|rows| - 1]];
    }
  }

  /** What the first loop has tallied of the rows that counted; `order` is the order of `bySource`'s entries. */
  datatype Tally = Tally(
    counted: nat, promoting: nat, tiers: Tiers, channels: set<string>,
    bySource: map<string, (set<string>, set<string>)>, order: seq<string>)

  ghost predicate IsTally(tierOf: TierOf, rows: seq<Doc>, t: Tally)
  {
    && t.counted == |rows|
    && t.tiers == TiersOf(tierOf, rows)
    && t.promoting == t.tiers.a + t.tiers.b + t.tiers.c
    && t.channels == ChannelKeys(rows)
    && t.bySource.Keys == SourceSet(rows) && t.order == Sources(rows)
    && (forall s :: s in t.bySource ==> IsEntry(rows, s, t.bySource[s]))
  }

  predicate IsEntry(rows: seq<Doc>, s: string, entry: (set<string>, set<string>))
  {
    entry == (Receipts(InSource(s, rows)), ChannelNames(InSource(s, rows)))
  }

  function Bumped(tiers: Tiers, t: Tier): Tiers
  {
    match t
    case A => tiers.(a := tiers.a + 1)
    case B => tiers.(b := tiers.b + 1)
    case C => tiers.(c := tiers.c + 1)
    case D => tiers.(d := tiers.d + 1)
  }

  lemma NextTiers(tierOf: TierOf, rows: seq<Doc>, d: Doc)
    ensures TiersOf(tierOf, rows + [d]) == Bumped(TiersOf(tierOf, rows), tierOf(d.source))
  {
    assert (rows + [d])[..|rows|] == rows;
  }

  lemma {:induction false} NotInSource(source: string, rows: seq<Doc>)
    requires source !in SourceSet(rows)
    ensures InSource(source, rows) == []
  {
    if rows != [] {
      NotInSource(source, rows[..|rows| - 1]);
    }
  }

  lemma SourceGrows(s: string, rows: seq<Doc>, d: Doc)
    ensures Receipts(InSource(s, rows + [d]))
         == Receipts(InSource(s, rows)) + if d.source == s then {d.receiptId} else {}
    ensures ChannelNames(InSource(s, rows + [d]))
         == ChannelNames(InSource(s, rows)) + if d.source == s then {d.channel} else {}
    ensures s !in SourceSet(rows) ==> Receipts(InSource(s, rows)) == {} && ChannelNames(InSource(s, rows)) == {}
  {
    NextRowIn(s, rows, d);
    NextRowIn(s, InSource(s, rows), d);
    if s !in SourceSet(rows) {
      NotInSource(s, rows);
    }
  }

  lemma NextInOrder(rows: seq<Doc>, d: Doc)
    ensures Sources(rows + [d]) == if d.source in SourceSet(rows) then Sources(rows) else Sources(rows) + [d.source]
  {
    SourcesAreSources(rows);
    SourcesGrow(rows, d);
  }

  /** A row that counts is added to every tally. */
  method Count(tierOf: TierOf, t: Tally, record: Doc, ghost rows: seq<Doc>) returns (t': Tally)
    requires IsTally(tierOf, rows, t)
    ensures IsTally(tierOf, rows + [record], t')
  {
    var tier := tierOf(record.source);
    var promoting := if tier.D? then t.promoting else t.promoting + 1;
    var entry := if record.source in t.bySource then t.bySource[record.source] else ({}, {});
    t' := Tally(
      t.counted + 1, promoting, Bumped(t.tiers, tier), t.channels + {ChannelKey(record)},
      t.bySource[record.source := (entry.0 + {record.receiptId}, entry.1 + {record.channel})],
      if record.source in t.bySource then t.order else t.order + [record.source]);
    NextInOrder(rows, record);
    NextTiers(tierOf, rows, record);
    NextRowIn(record.source, rows, record);
    forall s | s in t'.bySource ensures IsEntry(rows + [record], s, t'.bySource[s]) {
      SourceGrows(s, rows, record);
      assert s in t.bySource ==> IsEntry(rows, s, t.bySource[s]);
    }
  }

  /** What the first loop holds when `first` are the first rows so far. */
  datatype Heard = Heard(seen: set<string>, texts: set<string>, ids: seq<string>, tally: Tally)

  ghost predicate HeardAll(key: TextKey, tierOf: TierOf, first: seq<Doc>, h: Heard)
  {
    && h.seen == Receipts(first) && h.texts == Texts(key, first) && h.ids == Ids(first)
    && IsTally(tierOf, Counted(key, {}, first), h.tally)
  }

  /** The body of the first loop. */
  method Hear(key: TextKey, tierOf: TierOf, record: Doc, h: Heard, ghost first: seq<Doc>) returns (h': Heard)
    requires HeardAll(key, tierOf, first, h)
    ensures HeardAll(key, tierOf, if record.receiptId in Receipts(first) then first else first + [record], h')
  {
    h' := h;
    if record.receiptId in h.seen {
      return;
    }
    NextCounted(key, {}, first, record);
    h' := h'.(seen := h.seen + {record.receiptId}, ids := h.ids + [record.receiptId]);
    var text := key(record.text);
    if text != "" {
      if text in h.texts {
        return;
      }
      h' := h'.(texts := h.texts + {text});
    }
    var t := Count(tierOf, h.tally, record, Counted(key, {}, first));
    h' := h'.(tally := t);
  }

  method HearNothing(key: TextKey, tierOf: TierOf) returns (h: Heard)
    ensures HeardAll(key, tierOf, FirstRows([]), h)
  {
    h := Heard({}, {}, [], Tally(0, 0, Tiers(0, 0, 0, 0), {}, map[], []));
  }

  method HearNext(key: TextKey, tierOf: TierOf, record: Doc, h: Heard, ghost done: seq<Doc>) returns (h': Heard)
    requires HeardAll(key, tierOf, FirstRows(done), h)
    ensures HeardAll(key, tierOf, FirstRows(done + [record]), h')
  {
    NextRow(done, record);
    h' := Hear(key, tierOf, record, h, FirstRows(done));
  }

  /** The first loop. */
  method HearSupport(key: TextKey, tierOf: TierOf, records: seq<Doc>) returns (h: Heard)
    ensures HeardAll(key, tierOf, FirstRows(records), h)
  {
    h := HearNothing(key, tierOf);
    for i := 0 to |records|
      invariant HeardAll(key, tierOf, FirstRows(records[..i]), h)
    {
      h := HearNext(key, tierOf, records[i], h, records[..i]);
      OneMore(records, i);
    }
    WholePrefix(records);
  }

  /** What the second loop holds. */
  datatype Opposed = Opposed(
    seen: set<string>, texts: set<string>, ids: seq<string>, counted: nat, channels: set<string>)

  ghost predicate OpposedAll(key: TextKey, texts: set<string>, first: seq<Doc>, o: Opposed)
  {
    && o.seen == Receipts(first) && o.ids == Ids(first)
    && o.texts <= Texts(key, first) <= texts + o.texts
    && o.counted == |Counted(key, texts, first)| && o.channels == ChannelKeys(Counted(key, texts, first))
  }

  /** The body of the second loop, for a row whose receipt does not support. */
  method Oppose(key: TextKey, texts: set<string>, record: Doc, o: Opposed, ghost first: seq<Doc>) returns (o': Opposed)
    requires OpposedAll(key, texts, first, o)
    ensures OpposedAll(key, texts, if record.receiptId in Receipts(first) then first else first + [record], o')
  {
    o' := o;
    if record.receiptId in o.seen {
      return;
    }
    NextCounted(key, texts, first, record);
    o' := o'.(seen := o.seen + {record.receiptId}, ids := o.ids + [record.receiptId]);
    var text := key(record.text);
    if text != "" {
      if text in texts || text in o.texts {
        return;
      }
      o' := o'.(texts := o.texts + {text});
    }
    NextRowIn(record.source, Counted(key, texts, first), record);
    o' := o'.(counted := o.counted + 1, channels := o.channels + {ChannelKey(record)});
  }

  method OpposeNext(
      key: TextKey, seen: set<string>, texts: set<string>, record: Doc, o: Opposed, ghost done: seq<Doc>)
    returns (o': Opposed)
    requires OpposedAll(key, texts, FirstRows(Outside(seen, done)), o)
    ensures OpposedAll(key, texts, FirstRows(Outside(seen, done + [record])), o')
  {
    o' := o;
    NextOutside(seen, done, record);
    if record.receiptId !in seen {
      NextRow(Outside(seen, done), record);
      o' := Oppose(key, texts, record, o, FirstRows(Outside(seen, done)));
    }
  }

  /** The second loop. */
  method HearOpposition(key: TextKey, seen: set<string>, texts: set<string>, refuting: seq<Doc>) returns (o: Opposed)
    ensures OpposedAll(key, texts, FirstRows(Outside(seen, refuting)), o)
  {
    o := Opposed({}, {}, [], 0, {});
    for i := 0 to |refuting|
      invariant OpposedAll(key, texts, FirstRows(Outside(seen, refuting[..i])), o)
    {
      o := OpposeNext(key, seen, texts, refuting[i], o, refuting[..i]);
      OneMore(refuting, i);
    }
    WholePrefix(refuting);
  }

  /** The entries of these sources, in order. */
  function Entries(rows: seq<Doc>, sources: seq<string>): seq<(string, SourceSpread)>
  {
    seq(|sources|, i requires 0 <= i < |sources| => (sources[i], SpreadOf(sources[i], rows)))
  }

  function MostRecords(entry: (string, SourceSpread)): int { 0 - entry.1.records }

  function Named(collation: Collation): ((string, SourceSpread)) -> int
  {
    (entry: (string, SourceSpread)) => collation(entry.0)
  }

  /** The sources with most records first, and sources with as many in the order of their names. */
  function SpreadList(collation: Collation, rows: seq<Doc>): seq<(string, SourceSpread)>
  {
    Sorting.Sort(MostRecords, Sorting.Sort(Named(collation), Entries(rows, Sources(rows))))
  }

  method BasisFor(threshold: int, promoting: int, tiers: Tiers) returns (basis: Basis)
    requires promoting == tiers.a + tiers.b + tiers.c
    ensures basis == BasisOf(threshold, tiers)
  {
    var present := (if tiers.a > 0 then 1 else 0) + (if tiers.b > 0 then 1 else 0) + (if tiers.c > 0 then 1 else 0);
    basis := NoBasis;
    if promoting >= threshold {
      basis := ReceiptCount;
    } else if present >= 2 && (tiers.a > 0 || tiers.b > 0) {
      basis := CrossTier;
    } else if tiers.a >= 2 {
      basis := Attested;
    }
  }

  method SourceSpreads(collation: Collation, t: Tally, tierOf: TierOf, ghost rows: seq<Doc>)
    returns (sources: seq<(string, SourceSpread)>)
    requires IsTally(tierOf, rows, t)
    ensures sources == SpreadList(collation, rows)
  {
    SourcesAreSources(rows);
    sources := seq(|t.order|, i requires 0 <= i < |t.order| =>
      (t.order[i], if t.order[i] in t.bySource then SizesOf(t.bySource[t.order[i]]) else SourceSpread(0, 0)));
    forall i | 0 <= i < |t.order| ensures sources[i] == Entries(rows, Sources(rows))[i] {
      assert t.order[i] in Sources(rows) && IsEntry(rows, t.order[i], t.bySource[t.order[i]]);
    }
    assert sources == Entries(rows, Sources(rows));
    sources := Sorting.Sort(MostRecords, Sorting.Sort(Named(collation), sources));
  }

  function SizesOf(entry: (set<string>, set<string>)): SourceSpread { SourceSpread(|entry.0|, |entry.1|) }

  /** `corroborate`, with its options or their defaults. */
  method Judge(
      key: TextKey, tierOf: TierOf, collation: Collation, records: seq<Doc>, threshold: int, channelFloor: int,
      refuting: seq<Doc>)
    returns (c: Corroboration)
    ensures c.receiptIds == Ids(FirstRows(records)) && c.refutingIds == Ids(Opponents(records, refuting))
    ensures c.records == |Support(key, records)| && c.channels == |ChannelKeys(Support(key, records))|
    ensures c.sources == SpreadList(collation, Support(key, records))
    ensures c.tiers == TiersOf(tierOf, Support(key, records))
    ensures c.basis == BasisOf(threshold, c.tiers)
    ensures c.refutingRecords == |Opposition(key, records, refuting)|
    ensures c.refutingChannels == |ChannelKeys(Opposition(key, records, refuting))|
    ensures c.verdict == Judged(key, tierOf, threshold, channelFloor, records, refuting)
  {
    var h := HearSupport(key, tierOf, records);
    var t := h.tally;
    ghost var support := Support(key, records);
    assert IsTally(tierOf, support, t);
    var sources := SourceSpreads(collation, t, tierOf, support);
    var basis := BasisFor(threshold, t.promoting, t.tiers);
    var o := HearOpposition(key, h.seen, h.texts, refuting);
    var supported := basis != NoBasis && |t.channels| >= channelFloor;
    var refuted := o.counted >= threshold && |o.channels| >= channelFloor;
    c := Corroboration(h.ids, t.counted, |t.channels|, sources, t.tiers, basis, o.ids, o.counted, |o.channels|,
                       VerdictOf(supported, refuted));
  }

  // ---- What the counts mean ----

  function Textless(key: TextKey, rows: seq<Doc>): nat
  {
    if rows == [] then 0
    else Textless(key, rows[..|rows| - 1]) + if key(rows[|rows| - 1].text) == "" then 1 else 0
  }

  lemma OneMoreOutside(xs: set<string>, taken: set<string>, x: string)
    ensures |(xs + {x}) - taken| == |xs - taken| + if x in taken + xs then 0 else 1
  {
    if x in taken + xs {
      assert (xs + {x}) - taken == xs - taken;
    } else {
      assert (xs + {x}) - taken == (xs - taken) + {x};
    }
  }

  lemma NextTextless(key: TextKey, rows: seq<Doc>, d: Doc)
    ensures Textless(key, rows + [d]) == Textless(key, rows) + if key(d.text) == "" then 1 else 0
  {
    assert (rows + [d])[..|rows|] == rows;
  }

  lemma NextVoice(key: TextKey, taken: set<string>, rows: seq<Doc>, d: Doc)
    requires |Counted(key, taken, rows)| == |Texts(key, rows) - taken| + Textless(key, rows)
    ensures |Counted(key, taken, rows + [d])| == |Texts(key, rows + [d]) - taken| + Textless(key, rows + [d])
  {
    NextCounted(key, taken, rows, d);
    NextTextless(key, rows, d);
    if key(d.text) != "" {
      OneMoreOutside(Texts(key, rows), taken, key(d.text));
    }
  }

  /** The rows that count are as many as the distinct texts not taken, and the textless rows. */
  lemma {:induction false} CountedAreVoices(key: TextKey, taken: set<string>, rows: seq<Doc>)
    ensures |Counted(key, taken, rows)| == |Texts(key, rows) - taken| + Textless(key, rows)
  {
    if rows == [] {
      assert Texts(key, rows) - taken == {};
    } else {
      var front, last := rows[..|rows| - 1], rows[|rows| - 1];
      CountedAreVoices(key, taken, front);
      NextVoice(key, taken, front, last);
      assert rows == front + [last];
    }
  }

  lemma {:induction false} CountedAreRows(key: TextKey, taken: set<string>, rows: seq<Doc>)
    ensures forall d :: d in Counted(key, taken, rows) ==> d in rows && !Repeats(key, taken, d)
  {
    if rows != [] {
      var front, last := rows[..|rows| - 1], rows[|rows| - 1];
      CountedAreRows(key, taken, front);
      assert rows == front + [last];
    }
  }

  lemma {:induction false} CountedKeepReceiptsDistinct(key: TextKey, taken: set<string>, rows: seq<Doc>)
    requires DistinctReceipts(rows)
    ensures DistinctReceipts(Counted(key, taken, rows))
  {
    if rows != [] {
      var front, last := rows[..|rows| - 1], rows[|rows| - 1];
      var rest := Counted(key, taken, front);
      CountedKeepReceiptsDistinct(key, taken, front);
      CountedAreRows(key, taken, front);
      forall i | 0 <= i < |rest| ensures rest[i].receiptId != last.receiptId {
        assert rest[i] in front;
      }
    }
  }

  /** `records` is the number of distinct texts among the distinct receipts, and of receipts without text. */
  lemma RecordsAreVoices(key: TextKey, records: seq<Doc>)
    ensures |Support(key, records)| == |Texts(key, FirstRows(records))| + Textless(key, FirstRows(records))
    ensures DistinctReceipts(Support(key, records))
  {
    CountedAreVoices(key, {}, FirstRows(records));
    assert Texts(key, FirstRows(records)) - {} == Texts(key, FirstRows(records));
    FirstRowsAreRows(records);
    CountedKeepReceiptsDistinct(key, {}, FirstRows(records));
  }

  /** No receipt and no text counts on both sides. */
  lemma SidesAreDisjoint(key: TextKey, records: seq<Doc>, refuting: seq<Doc>, d: Doc, e: Doc)
    requires d in Support(key, records) && e in Opposition(key, records, refuting)
    ensures d.receiptId != e.receiptId
    ensures key(d.text) != "" ==> key(d.text) != key(e.text)
  {
    var first := FirstRows(records);
    CountedAreRows(key, {}, first);
    CountedAreRows(key, Texts(key, first), Opponents(records, refuting));
    OpponentsAreOutside(records, refuting, e);
    ReceiptsAre(first);
    TextsAre(key, first);
    assert d.receiptId in Receipts(first) && TextOf(key, d) <= Texts(key, first);
  }

  lemma OpponentsAreOutside(records: seq<Doc>, refuting: seq<Doc>, e: Doc)
    requires e in Opponents(records, refuting)
    ensures e in refuting && e.receiptId !in Receipts(FirstRows(records))
  {
    var seen := Receipts(FirstRows(records));
    FirstRowsAreRows(Outside(seen, refuting));
    OutsideIsOutside(seen, refuting);
  }

  lemma {:induction false} OutsideIsOutside(receipts: set<string>, rows: seq<Doc>)
    ensures forall d :: d in Outside(receipts, rows) <==> d in rows && d.receiptId !in receipts
  {
    if rows != [] {
      var front, last := rows[..|rows| - 1], rows[|rows| - 1];
      OutsideIsOutside(receipts, front);
      assert rows == front + [last];
    }
  }

  /** What the entries of these sources add up to. */
  function SpreadTotal(rows: seq<Doc>, sources: seq<string>): SourceSpread
  {
    if sources == [] then SourceSpread(0, 0)
    else
      var first, rest := SpreadOf(sources[0], rows), SpreadTotal(rows, sources[1..]);
      SourceSpread(first.records + rest.records, first.channels + rest.channels)
  }

  lemma {:induction false} ReceiptsOfDistinct(rows: seq<Doc>)
    requires DistinctReceipts(rows)
    ensures |Receipts(rows)| == |rows|
  {
    if rows != [] {
      ReceiptsOfDistinct(rows[..|rows| - 1]);
      LastIsNew(rows);
    }
  }

  lemma LastIsNew(rows: seq<Doc>)
    requires DistinctReceipts(rows) && rows != []
    ensures rows[|rows| - 1].receiptId !in Receipts(rows[..|rows| - 1])
  {
    ReceiptsAre(rows[..|rows| - 1]);
  }

  lemma {:induction false} InSourceIsInSource(s: string, rows: seq<Doc>)
    ensures forall d :: d in InSource(s, rows) <==> d in rows && d.source == s
  {
    if rows != [] {
      InSourceIsInSource(s, rows[..|rows| - 1]);
      assert rows == rows[..|rows| - 1] + [rows[|rows| - 1]];
    }
  }

  /** How one more row changes its own source's entry, and the number of channels. */
  lemma RecordsGrow(rows: seq<Doc>, d: Doc)
    requires d.receiptId !in Receipts(rows)
    ensures SpreadOf(d.source, rows + [d]).records == SpreadOf(d.source, rows).records + 1
  {
    SourceGrows(d.source, rows, d);
    NotYetInSource(rows, d);
  }

  lemma ChannelsGrow(rows: seq<Doc>, d: Doc)
    requires KnownSources(rows) && '/' !in d.source
    ensures SpreadOf(d.source, rows + [d]).channels - SpreadOf(d.source, rows).channels
         == |ChannelKeys(rows + [d])| - |ChannelKeys(rows)|
  {
    SourceGrows(d.source, rows, d);
    NextRowIn(d.source, rows, d);
    NewChannel(rows, d);
    OneMoreIn(ChannelKeys(rows), ChannelKey(d));
    OneMoreIn(ChannelNames(InSource(d.source, rows)), d.channel);
  }

  lemma OneMoreIn(xs: set<string>, x: string)
    ensures |xs + {x}| == |xs| + if x in xs then 0 else 1
  {
    if x in xs {
      assert xs + {x} == xs;
    }
  }

  lemma NotYetInSource(rows: seq<Doc>, d: Doc)
    requires d.receiptId !in Receipts(rows)
    ensures d.receiptId !in Receipts(InSource(d.source, rows))
  {
    InSourceIsInSource(d.source, rows);
    ReceiptsAre(rows);
    ReceiptsAre(InSource(d.source, rows));
  }

  /** A channel is new to its source exactly when it is new. */
  lemma NewChannel(rows: seq<Doc>, d: Doc)
    requires KnownSources(rows) && '/' !in d.source
    ensures ChannelKey(d) in ChannelKeys(rows) <==> d.channel in ChannelNames(InSource(d.source, rows))
  {
    InSourceIsInSource(d.source, rows);
    ChannelKeysAre(rows);
    ChannelNamesAre(InSource(d.source, rows));
    forall e | e in rows
      ensures ChannelKey(e) == ChannelKey(d) <==> e.source == d.source && e.channel == d.channel
    {
      ChannelKeyIsThePair(e, d);
    }
  }

  lemma OtherEntriesStand(rows: seq<Doc>, d: Doc, s: string)
    requires s != d.source
    ensures SpreadOf(s, rows + [d]) == SpreadOf(s, rows)
  {
    NextRowIn(s, rows, d);
  }

  /** One more row changes a total by what it changes its own source's entry. */
  lemma {:induction false} TotalGrows(rows: seq<Doc>, d: Doc, sources: seq<string>)
    requires NoRepeat(sources)
    ensures var before, after := SpreadTotal(rows, sources), SpreadTotal(rows + [d], sources);
            var old', new' := SpreadOf(d.source, rows), SpreadOf(d.source, rows + [d]);
            && after.records == before.records + (if d.source in sources then new'.records - old'.records else 0)
            && after.channels == before.channels + (if d.source in sources then new'.channels - old'.channels else 0)
  {
    if sources != [] {
      TotalGrows(rows, d, sources[1..]);
      if sources[0] != d.source {
        OtherEntriesStand(rows, d, sources[0]);
      }
    }
  }

  lemma {:induction false} TotalWithOneMore(rows: seq<Doc>, sources: seq<string>, s: string)
    ensures SpreadTotal(rows, sources + [s]).records == SpreadTotal(rows, sources).records + SpreadOf(s, rows).records
    ensures SpreadTotal(rows, sources + [s]).channels
         == SpreadTotal(rows, sources).channels + SpreadOf(s, rows).channels
  {
    if sources != [] {
      assert (sources + [s])[1..] == sources[1..] + [s];
      TotalWithOneMore(rows, sources[1..], s);
    }
  }

  lemma SourcesGrow(rows: seq<Doc>, d: Doc)
    ensures Sources(rows + [d]) == if d.source in Sources(rows) then Sources(rows) else Sources(rows) + [d.source]
    ensures NoRepeat(Sources(rows))
    ensures d.source !in Sources(rows) ==> SpreadOf(d.source, rows) == SourceSpread(0, 0)
  {
    assert (rows + [d])[..|rows|] == rows;
    SourcesAreSources(rows);
    if d.source !in Sources(rows) {
      SourceGrows(d.source, rows, d);
    }
  }

  lemma NextOfKnown(rows: seq<Doc>, d: Doc)
    requires d.receiptId !in Receipts(rows) && KnownSources(rows) && '/' !in d.source && d.source in Sources(rows)
    requires SpreadTotal(rows, Sources(rows)) == SourceSpread(|rows|, |ChannelKeys(rows)|)
    ensures SpreadTotal(rows + [d], Sources(rows)) == SourceSpread(|rows| + 1, |ChannelKeys(rows + [d])|)
  {
    SourcesAreSources(rows);
    RecordsGrow(rows, d);
    ChannelsGrow(rows, d);
    TotalGrows(rows, d, Sources(rows));
  }

  lemma NextOfNew(rows: seq<Doc>, d: Doc)
    requires d.receiptId !in Receipts(rows) && KnownSources(rows) && '/' !in d.source && d.source !in Sources(rows)
    requires SpreadTotal(rows, Sources(rows)) == SourceSpread(|rows|, |ChannelKeys(rows)|)
    ensures SpreadTotal(rows + [d], Sources(rows) + [d.source]) == SourceSpread(|rows| + 1, |ChannelKeys(rows + [d])|)
  {
    SourcesGrow(rows, d);
    RecordsGrow(rows, d);
    ChannelsGrow(rows, d);
    TotalGrows(rows, d, Sources(rows));
    TotalWithOneMore(rows + [d], Sources(rows), d.source);
  }

  lemma NextSource(rows: seq<Doc>, d: Doc)
    requires d.receiptId !in Receipts(rows) && KnownSources(rows) && '/' !in d.source
    requires SpreadTotal(rows, Sources(rows)) == SourceSpread(|rows|, |ChannelKeys(rows)|)
    ensures SpreadTotal(rows + [d], Sources(rows + [d])) == SourceSpread(|rows| + 1, |ChannelKeys(rows + [d])|)
  {
    SourcesGrow(rows, d);
    if d.source in Sources(rows) {
      NextOfKnown(rows, d);
    } else {
      NextOfNew(rows, d);
    }
  }

  /** Per-source records sum to the records, and per-source channels to the channels. */
  lemma {:induction false} SpreadAddsUp(rows: seq<Doc>)
    requires DistinctReceipts(rows) && KnownSources(rows)
    ensures SpreadTotal(rows, Sources(rows)) == SourceSpread(|rows|, |ChannelKeys(rows)|)
  {
    if rows != [] {
      var front, last := rows[..|rows| - 1], rows[|rows| - 1];
      SpreadAddsUp(front);
      LastIsNew(rows);
      NextSource(front, last);
      assert front + [last] == rows;
    }
  }

  function RecordsIn(entry: (string, SourceSpread)): int { entry.1.records }

  function ChannelsIn(entry: (string, SourceSpread)): int { entry.1.channels }

  lemma {:induction false} EntriesAddUp(rows: seq<Doc>, sources: seq<string>)
    ensures Sum(RecordsIn, Entries(rows, sources)) == SpreadTotal(rows, sources).records
    ensures Sum(ChannelsIn, Entries(rows, sources)) == SpreadTotal(rows, sources).channels
  {
    if sources != [] {
      assert Entries(rows, sources)[1..] == Entries(rows, sources[1..]);
      EntriesAddUp(rows, sources[1..]);
    }
  }

  lemma ListSums(f: ((string, SourceSpread)) -> int, collation: Collation, rows: seq<Doc>)
    ensures Sum(f, SpreadList(collation, rows)) == Sum(f, Entries(rows, Sources(rows)))
  {
    var entries := Entries(rows, Sources(rows));
    Sorting.SumSort(f, Named(collation), entries);
    Sorting.SumSort(f, MostRecords, Sorting.Sort(Named(collation), entries));
  }

  /** The published list has each source that counted once: most records first, then by name. */
  lemma SourcesListed(collation: Collation, rows: seq<Doc>)
    ensures NoRepeat(Sources(rows)) && forall s :: s in Sources(rows) <==> exists d :: d in rows && d.source == s
    ensures multiset(SpreadList(collation, rows)) == multiset(Entries(rows, Sources(rows)))
    ensures var xs := SpreadList(collation, rows);
            forall i, j :: 0 <= i < j < |xs| ==>
              || xs[i].1.records > xs[j].1.records
              || (xs[i].1.records == xs[j].1.records && collation(xs[i].0) <= collation(xs[j].0))
  {
    SourcesAreSources(rows);
    SourceSetIs(rows);
    Sorting.TwoKeys(MostRecords, Named(collation), Entries(rows, Sources(rows)));
  }

  lemma {:induction false} SourceSetIs(rows: seq<Doc>)
    ensures forall s :: s in SourceSet(rows) <==> exists d :: d in rows && d.source == s
  {
    if rows != [] {
      var front, last := rows[..|rows| - 1], rows[|rows| - 1];
      SourceSetIs(front);
      assert rows == front + [last];
      assert last in rows;
    }
  }

  /** All the published counts add up to `records` and `channels`. */
  lemma CountsAddUp(key: TextKey, tierOf: TierOf, collation: Collation, records: seq<Doc>)
    requires KnownSources(records)
    ensures var rows := Support(key, records);
            var t := TiersOf(tierOf, rows);
            && t.a + t.b + t.c + t.d == |rows|
            && Sum(RecordsIn, SpreadList(collation, rows)) == |rows|
            && Sum(ChannelsIn, SpreadList(collation, rows)) == |ChannelKeys(rows)|
  {
    var rows := Support(key, records);
    TiersAddUp(tierOf, rows);
    EntriesAddUp(rows, Sources(rows));
    ListSums(RecordsIn, collation, rows);
    ListSums(ChannelsIn, collation, rows);
    RecordsAreVoices(key, records);
    FirstRowsAreRows(records);
    CountedAreRows(key, {}, FirstRows(records));
    SpreadAddsUp(rows);
  }

  lemma {:induction false} TiersAddUp(tierOf: TierOf, rows: seq<Doc>)
    ensures var t := TiersOf(tierOf, rows); t.a + t.b + t.c + t.d == |rows|
  {
    if rows != [] {
      var front, last := rows[..|rows| - 1], rows[|rows| - 1];
      TiersAddUp(tierOf, front);
      NextTiers(tierOf, front, last);
      assert front + [last] == rows;
    }
  }

  // ---- More rows ----

  /** Each receipt has one text. */
  predicate OneTextEach(key: TextKey, rows: seq<Doc>)
  {
    forall d, e :: d in rows && e in rows && d.receiptId == e.receiptId ==> key(d.text) == key(e.text)
  }

  lemma {:induction false} FirstRowsGrow(records: seq<Doc>, more: seq<Doc>)
    ensures FirstRows(records) <= FirstRows(records + more)
  {
    if more == [] {
      assert records + more == records;
    } else {
      var front, last := more[..|more| - 1], more[|more| - 1];
      FirstRowsGrow(records, front);
      assert records + more == records + front + [last];
      NextRow(records + front, last);
    }
  }

  lemma {:induction false} CountedGrow(key: TextKey, taken: set<string>, rows: seq<Doc>, more: seq<Doc>)
    ensures Counted(key, taken, rows) <= Counted(key, taken, rows + more)
  {
    if more == [] {
      assert rows + more == rows;
    } else {
      var front, last := more[..|more| - 1], more[|more| - 1];
      CountedGrow(key, taken, rows, front);
      assert rows + more == rows + front + [last];
      NextCounted(key, taken, rows + front, last);
    }
  }

  lemma CountedOfPrefix(key: TextKey, taken: set<string>, rows: seq<Doc>, longer: seq<Doc>)
    requires rows <= longer
    ensures Counted(key, taken, rows) <= Counted(key, taken, longer)
  {
    assert longer == rows + longer[|rows|..];
    CountedGrow(key, taken, rows, longer[|rows|..]);
  }

  lemma {:induction false} TierGrows(tierOf: TierOf, t: Tier, rows: seq<Doc>, longer: seq<Doc>)
    requires rows <= longer
    ensures TierCount(tierOf, t, rows) <= TierCount(tierOf, t, longer)
    decreases |longer|
  {
    if |rows| < |longer| {
      TierGrows(tierOf, t, rows, longer[..|longer| - 1]);
    } else {
      assert rows == longer;
    }
  }

  lemma SmallerSet<T>(xs: set<T>, ys: set<T>)
    requires xs <= ys
    ensures |xs| <= |ys|
  {
    assert ys == xs + (ys - xs);
  }

  lemma FewerChannels(rows: seq<Doc>, others: seq<Doc>)
    requires forall d :: d in rows ==> d in others
    ensures |ChannelKeys(rows)| <= |ChannelKeys(others)|
  {
    ChannelKeysAre(rows);
    ChannelKeysAre(others);
    SmallerSet(ChannelKeys(rows), ChannelKeys(others));
  }

  lemma PrefixMembers(rows: seq<Doc>, longer: seq<Doc>)
    requires rows <= longer
    ensures forall d :: d in rows ==> d in longer
  {
  }

  /** A basis is never lost by counting more. */
  lemma BasisGrows(tierOf: TierOf, threshold: int, rows: seq<Doc>, longer: seq<Doc>)
    requires rows <= longer && BasisOf(threshold, TiersOf(tierOf, rows)) != NoBasis
    ensures BasisOf(threshold, TiersOf(tierOf, longer)) != NoBasis
  {
    TierGrows(tierOf, A, rows, longer);
    TierGrows(tierOf, B, rows, longer);
    TierGrows(tierOf, C, rows, longer);
  }

  /** More supporting rows never take support away, whatever their texts. */
  lemma SupportOnlyGrows(
      key: TextKey, tierOf: TierOf, threshold: int, floor: int, records: seq<Doc>, more: seq<Doc>)
    requires Supported(key, tierOf, threshold, floor, records)
    ensures Supported(key, tierOf, threshold, floor, records + more)
  {
    var rows, longer := Support(key, records), Support(key, records + more);
    FirstRowsGrow(records, more);
    CountedOfPrefix(key, {}, FirstRows(records), FirstRows(records + more));
    BasisGrows(tierOf, threshold, rows, longer);
    PrefixMembers(rows, longer);
    FewerChannels(rows, longer);
  }

  /** More refuting rows never take disagreement away, and do not touch support. */
  lemma OppositionOnlyGrows(
      key: TextKey, threshold: int, floor: int, records: seq<Doc>, refuting: seq<Doc>, more: seq<Doc>)
    requires IsRefuted(key, threshold, floor, records, refuting)
    ensures IsRefuted(key, threshold, floor, records, refuting + more)
  {
    var rows, longer := Opposition(key, records, refuting), Opposition(key, records, refuting + more);
    OpponentsGrow(records, refuting, more);
    CountedOfPrefix(key, Texts(key, FirstRows(records)), Opponents(records, refuting),
                    Opponents(records, refuting + more));
    PrefixMembers(rows, longer);
    FewerChannels(rows, longer);
  }

  lemma OpponentsGrow(records: seq<Doc>, refuting: seq<Doc>, more: seq<Doc>)
    ensures Opponents(records, refuting) <= Opponents(records, refuting + more)
  {
    var seen := Receipts(FirstRows(records));
    OutsideGrows(seen, refuting, more);
    var rows, longer := Outside(seen, refuting), Outside(seen, refuting + more);
    assert longer == rows + longer[|rows|..];
    FirstRowsGrow(rows, longer[|rows|..]);
  }

  lemma {:induction false} OutsideGrows(receipts: set<string>, rows: seq<Doc>, more: seq<Doc>)
    ensures Outside(receipts, rows) <= Outside(receipts, rows + more)
  {
    if more == [] {
      assert rows + more == rows;
    } else {
      var front, last := more[..|more| - 1], more[|more| - 1];
      OutsideGrows(receipts, rows, front);
      assert rows + more == rows + front + [last];
      NextOutside(receipts, rows + front, last);
    }
  }

  /** Every row of the smaller side is a row of the larger, when fewer receipts and texts are taken. */
  lemma {:induction false} OppositionShrinks(
      key: TextKey, seen: set<string>, taken: set<string>, seen': set<string>, taken': set<string>, refuting: seq<Doc>)
    requires seen <= seen' && taken <= taken' && OneTextEach(key, refuting)
    requires forall d :: d in refuting && d.receiptId in seen' ==> TextOf(key, d) <= taken'
    ensures forall d :: d in Counted(key, taken', FirstRows(Outside(seen', refuting)))
                   ==> d in Counted(key, taken, FirstRows(Outside(seen, refuting)))
  {
    if refuting != [] {
      var front, last := refuting[..|refuting| - 1], refuting[|refuting| - 1];
      assert refuting == front + [last];
      OppositionShrinks(key, seen, taken, seen', taken', front);
      NextOutside(seen, front, last);
      NextOutside(seen', front, last);
      var out, out' := Outside(seen, front), Outside(seen', front);
      NextRow(out, last);
      NextRow(out', last);
      NextCounted(key, taken, FirstRows(out), last);
      NextCounted(key, taken', FirstRows(out'), last);
      if last.receiptId !in seen' {
        SameReceiptsOutside(seen, seen', front, last.receiptId);
        TextsOutside(key, seen, seen', taken', front);
      }
    }
  }

  lemma SameReceiptsOutside(seen: set<string>, seen': set<string>, rows: seq<Doc>, id: string)
    requires seen <= seen' && id !in seen'
    ensures id in Receipts(FirstRows(Outside(seen, rows))) <==> id in Receipts(FirstRows(Outside(seen', rows)))
  {
    var out, out' := Outside(seen, rows), Outside(seen', rows);
    ReceiptsOfFirstRows(out);
    ReceiptsOfFirstRows(out');
    ReceiptsAre(out);
    ReceiptsAre(out');
    OutsideIsOutside(seen, rows);
    OutsideIsOutside(seen', rows);
  }

  lemma ReceiptsOfFirstRows(rows: seq<Doc>)
    ensures Receipts(FirstRows(rows)) == Receipts(rows)
  {
    FirstRowsAreRows(rows);
    ReceiptsAre(rows);
    ReceiptsAre(FirstRows(rows));
    forall d | d in rows ensures d.receiptId in Receipts(FirstRows(rows)) {
      EveryReceiptHasARow(rows, d);
    }
  }

  /** A text heard among the opponents is taken by the support, or still heard among those that remain. */
  lemma TextStillHeard(key: TextKey, seen: set<string>, seen': set<string>, taken': set<string>, rows: seq<Doc>, d: Doc)
    requires seen <= seen' && OneTextEach(key, rows)
    requires forall e :: e in rows && e.receiptId in seen' ==> TextOf(key, e) <= taken'
    requires d in FirstRows(Outside(seen, rows))
    ensures TextOf(key, d) <= taken' + Texts(key, FirstRows(Outside(seen', rows)))
  {
    FirstRowsAreRows(Outside(seen, rows));
    OutsideIsOutside(seen, rows);
    if d.receiptId !in seen' {
      var left := Outside(seen', rows);
      OutsideIsOutside(seen', rows);
      EveryReceiptHasARow(left, d);
      var f :| f in FirstRows(left) && f.receiptId == d.receiptId;
      FirstRowsAreRows(left);
      TextsAre(key, FirstRows(left));
      assert f in rows && TextOf(key, f) == TextOf(key, d);
    }
  }

  lemma TextsOutside(key: TextKey, seen: set<string>, seen': set<string>, taken': set<string>, rows: seq<Doc>)
    requires seen <= seen' && OneTextEach(key, rows)
    requires forall d :: d in rows && d.receiptId in seen' ==> TextOf(key, d) <= taken'
    ensures Texts(key, FirstRows(Outside(seen, rows))) <= taken' + Texts(key, FirstRows(Outside(seen', rows)))
  {
    var left := taken' + Texts(key, FirstRows(Outside(seen', rows)));
    TextsAre(key, FirstRows(Outside(seen, rows)));
    forall d | d in FirstRows(Outside(seen, rows)) ensures TextOf(key, d) <= left {
      TextStillHeard(key, seen, seen', taken', rows, d);
    }
  }

  lemma SupportTakesTexts(key: TextKey, records: seq<Doc>, refuting: seq<Doc>)
    requires OneTextEach(key, records + refuting)
    ensures forall d :: d in refuting && d.receiptId in Receipts(FirstRows(records))
              ==> TextOf(key, d) <= Texts(key, FirstRows(records))
  {
    var first := FirstRows(records);
    FirstRowsAreRows(records);
    ReceiptsAre(first);
    TextsAre(key, first);
    forall d | d in refuting && d.receiptId in Receipts(first) ensures TextOf(key, d) <= Texts(key, first) {
      var f :| f in first && f.receiptId == d.receiptId;
      assert f in records + refuting && d in records + refuting;
      assert TextOf(key, f) == TextOf(key, d);
    }
  }

  lemma OppositionOfMore(key: TextKey, records: seq<Doc>, more: seq<Doc>, refuting: seq<Doc>)
    requires OneTextEach(key, records + more + refuting)
    ensures forall d :: d in Opposition(key, records + more, refuting) ==> d in Opposition(key, records, refuting)
  {
    var first, first' := FirstRows(records), FirstRows(records + more);
    FirstRowsGrow(records, more);
    PrefixMembers(first, first');
    ReceiptsAre(first);
    ReceiptsAre(first');
    TextsAre(key, first);
    TextsAre(key, first');
    SupportTakesTexts(key, records + more, refuting);
    assert OneTextEach(key, refuting) by {
      assert forall d :: d in refuting ==> d in records + more + refuting;
    }
    OppositionShrinks(key, Receipts(first), Texts(key, first), Receipts(first'), Texts(key, first'), refuting);
  }

  lemma OppositionDistinct(key: TextKey, records: seq<Doc>, refuting: seq<Doc>)
    ensures |Receipts(Opposition(key, records, refuting))| == |Opposition(key, records, refuting)|
  {
    FirstRowsAreRows(Outside(Receipts(FirstRows(records)), refuting));
    CountedKeepReceiptsDistinct(key, Texts(key, FirstRows(records)), Opponents(records, refuting));
    ReceiptsOfDistinct(Opposition(key, records, refuting));
  }

  /** More supporting rows never add to the disagreement, when a receipt has one text. */
  lemma MoreSupportLessOpposition(
      key: TextKey, threshold: int, floor: int, records: seq<Doc>, more: seq<Doc>, refuting: seq<Doc>)
    requires OneTextEach(key, records + more + refuting)
    requires IsRefuted(key, threshold, floor, records + more, refuting)
    ensures IsRefuted(key, threshold, floor, records, refuting)
  {
    var rows, fewer := Opposition(key, records, refuting), Opposition(key, records + more, refuting);
    OppositionOfMore(key, records, more, refuting);
    OppositionDistinct(key, records, refuting);
    OppositionDistinct(key, records + more, refuting);
    ReceiptsAre(rows);
    ReceiptsAre(fewer);
    SmallerSet(Receipts(fewer), Receipts(rows));
    FewerChannels(fewer, rows);
  }

  /** When a receipt has one text, a finding stays a finding however many supporting rows are added. */
  lemma FindingStays(
      key: TextKey, tierOf: TierOf, threshold: int, floor: int, records: seq<Doc>, more: seq<Doc>, refuting: seq<Doc>)
    requires OneTextEach(key, records + more + refuting)
    requires Judged(key, tierOf, threshold, floor, records, refuting) == Finding
    ensures Judged(key, tierOf, threshold, floor, records + more, refuting) == Finding
  {
    SupportOnlyGrows(key, tierOf, threshold, floor, records, more);
    if IsRefuted(key, threshold, floor, records + more, refuting) {
      MoreSupportLessOpposition(key, threshold, floor, records, more, refuting);
    }
  }
}
