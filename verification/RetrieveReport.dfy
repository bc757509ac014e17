/** What a finished retrieval reports, and the guarantees of the pool on every schedule. */
module RetrieveReport {
  import opened Basics
  import Sorting
  import opened RetrieveModel
  import opened RetrieveInvariant

  datatype RetrievalResult = RetrievalResult(
    outcomes: seq<Outcome>, holes: seq<Hole>, totalWritten: nat, totalSeen: nat, stop: Stop)

  function OutcomePosition(o: Outcome): int { o.source }

  function HolePosition(h: Hole): int { h.source }

  /** The sources from `i` on that never ran, as the closing loop reports them. */
  function NeverRan(cfg: Config, ran: set<nat>, i: nat): seq<Outcome>
    requires i <= cfg.sources
    decreases cfg.sources - i
  {
    if i == cfg.sources then []
    else (if i in ran then [] else [Outcome(i, Skipped, 0, 0, 0, 0, 0, 0)]) + NeverRan(cfg, ran, i + 1)
  }

  function NotReachedHoles(outcomes: seq<Outcome>): seq<Hole>
  {
    if outcomes == [] then [] else [Hole(outcomes[0].source, NotReached)] + NotReachedHoles(outcomes[1..])
  }

  /** One more source that never ran, put in its place. */
  lemma NextNeverRan(cfg: Config, ran: set<nat>, i: nat)
    requires i < cfg.sources && i !in ran
    ensures var rest := NeverRan(cfg, ran, i + 1);
            && NeverRan(cfg, ran, i) == [Outcome(i, Skipped, 0, 0, 0, 0, 0, 0)] + rest
            && NotReachedHoles(NeverRan(cfg, ran, i)) == [Hole(i, NotReached)] + NotReachedHoles(rest)
  {
    var rest := NeverRan(cfg, ran, i + 1);
    assert ([Outcome(i, Skipped, 0, 0, 0, 0, 0, 0)] + rest)[1..] == rest;
  }

  /** The cap announces itself even when every source stopped by its own budget. */
  function Verdict(cfg: Config, s: Pool): Stop
  {
    if s.books.stop.NotStopped? && s.books.totalWritten >= cfg.maxTotal then RecordCap else s.books.stop
  }

  function Missing(cfg: Config, s: Pool): seq<Outcome>
  {
    if Verdict(cfg, s).NotStopped? then []
    else NeverRan(cfg, set o | o in Sorting.Sort(OutcomePosition, s.outcomes) :: o.source, 0)
  }

  /** `retrieveAll` after the pool: sort, announce the cap, report what never ran. */
  function Conclude(cfg: Config, s: Pool): RetrievalResult
  {
    var outcomes := Sorting.Sort(OutcomePosition, s.outcomes);
    var holes := Sorting.Sort(HolePosition, s.holes);
    RetrievalResult(outcomes + Missing(cfg, s), holes + NotReachedHoles(Missing(cfg, s)),
                    s.books.totalWritten, s.books.totalSeen, Verdict(cfg, s))
  }

  // ---- The pool at rest ----

  /**
    When every worker has returned the totals are the outcomes'. Nothing is promised if every budget was kept,
    and nothing is counted as batched if no write and no close has failed.
   */
  lemma RestingBooks(cfg: Config, acts: seq<Action>)
    requires Run(cfg, acts).Some? && PoolDone(Run(cfg, acts).value)
    ensures var s := Run(cfg, acts).value;
            && s.books.totalWritten == Sum(WrittenIn, s.outcomes)
            && s.books.totalSeen == Sum(SeenIn, s.outcomes)
            && (s.books.next == cfg.sources || !s.books.stop.NotStopped?)
    ensures Smooth(acts) || cfg.maxQueries <= 1 ==> Run(cfg, acts).value.books.reserved == 0
    ensures Smooth(acts) ==> Run(cfg, acts).value.books.unflushed == 0
  {
    var s := Run(cfg, acts).value;
    RunSound(cfg, acts);
    SumZero(Owed, s.workers);
    SumZero(Held, s.workers);
    SumZero(WrittenBy, s.workers);
    SumZero(SeenBy, s.workers);
    assert s.workers[0] in s.workers;
    if Smooth(acts) || cfg.maxQueries <= 1 {
      RunThrifty(cfg, acts);
    }
    if Smooth(acts) {
      RunInv(cfg, acts);
    }
  }

  lemma {:induction false} CountedIsMember(i: nat, xs: seq<Outcome>)
    requires Sum(Reports(i), xs) >= 1
    ensures exists o :: o in xs && o.source == i
  {
    if xs[0].source == i {
      assert xs[0] in xs;
    } else {
      CountedIsMember(i, xs[1..]);
      var o :| o in xs[1..] && o.source == i;
      assert o in xs;
    }
  }

  lemma CountsAreNatural(i: nat, xs: seq<Outcome>)
    ensures Sum(Reports(i), xs) >= 0
  {
    SumBounds(Reports(i), xs);
  }

  /** An ordered list that counts each of lo, ..., hi - 1 once, and nothing else, is that range. */
  lemma {:induction false} OrderedCensus(xs: seq<Outcome>, lo: nat, hi: nat)
    requires lo <= hi && Sorting.Sorted(OutcomePosition, xs)
    requires forall i: nat :: Sum(Reports(i), xs) == if lo <= i < hi then 1 else 0
    ensures |xs| == hi - lo
    ensures forall k :: 0 <= k < |xs| ==> xs[k].source == lo + k
  {
    if xs == [] {
      assert Sum(Reports(lo), xs) == 0;
    } else {
      var first := xs[0].source;
      CountsAreNatural(first, xs[1..]);
      assert Sum(Reports(first), xs) >= 1;
      assert lo <= first < hi;
      CountedIsMember(lo, xs);
      var o :| o in xs && o.source == lo;
      var j :| 0 <= j < |xs| && xs[j] == o;
      assert OutcomePosition(xs[0]) <= OutcomePosition(xs[j]);
      assert first == lo;
      forall i: nat ensures Sum(Reports(i), xs[1..]) == if lo + 1 <= i < hi then 1 else 0 {
        assert Sum(Reports(i), xs) == Reports(i)(xs[0]) + Sum(Reports(i), xs[1..]);
      }
      OrderedCensus(xs[1..], lo + 1, hi);
      assert forall k :: 1 <= k < |xs| ==> xs[k] == xs[1..][k - 1];
    }
  }

  /** Once the pool is done, the ordered outcomes are those of sources 0, 1, ..., next - 1. */
  lemma OutcomesInRegistryOrder(cfg: Config, s: Pool)
    requires Sound(cfg, s) && PoolDone(s)
    ensures var xs := Sorting.Sort(OutcomePosition, s.outcomes);
            |xs| == s.books.next && forall k :: 0 <= k < |xs| ==> xs[k].source == k
  {
    var xs := Sorting.Sort(OutcomePosition, s.outcomes);
    Sorting.Stable(OutcomePosition, s.outcomes);
    forall i: nat ensures Sum(Reports(i), xs) == if i < s.books.next then 1 else 0 {
      Sorting.SumSort(Reports(i), OutcomePosition, s.outcomes);
      SumZero(WorksOn(i), s.workers);
    }
    OrderedCensus(xs, 0, s.books.next);
  }

  // ---- The degraded block ----

  function Itself(i: nat): int { i }

  lemma {:induction false} HoleSourcesInsert(h: Hole, hs: seq<Hole>)
    ensures HoleSources(Sorting.Insert(HolePosition, h, hs)) == Sorting.Insert(Itself, h.source, HoleSources(hs))
  {
    if hs != [] && h.source > hs[0].source {
      HoleSourcesInsert(h, hs[1..]);
      assert ([hs[0]] + Sorting.Insert(HolePosition, h, hs[1..]))[1..] == Sorting.Insert(HolePosition, h, hs[1..]);
      assert HoleSources(hs)[1..] == HoleSources(hs[1..]);
    } else {
      assert ([h] + hs)[1..] == hs;
    }
  }

  lemma {:induction false} HoleSourcesSort(hs: seq<Hole>)
    ensures HoleSources(Sorting.Sort(HolePosition, hs)) == Sorting.Sort(Itself, HoleSources(hs))
  {
    if hs != [] {
      HoleSourcesSort(hs[1..]);
      HoleSourcesInsert(hs[0], Sorting.Sort(HolePosition, hs[1..]));
      assert HoleSources(hs)[1..] == HoleSources(hs[1..]);
    }
  }

  lemma {:induction false} BarrenAtLeast(lo: nat, xs: seq<Outcome>)
    requires forall o :: o in xs ==> lo <= o.source
    ensures forall i :: i in BarrenSources(xs) ==> lo <= i
  {
    if xs != [] {
      assert xs[0] in xs;
      BarrenAtLeast(lo, xs[1..]);
    }
  }

  lemma BarrenPrepend(o: Outcome, xs: seq<Outcome>)
    ensures BarrenSources([o] + xs) == (if Barren(o) then [o.source] else []) + BarrenSources(xs)
  {
    assert ([o] + xs)[1..] == xs;
  }

  lemma InsertFirst(i: nat, ys: seq<nat>)
    requires forall y :: y in ys ==> i <= y
    ensures Sorting.Insert(Itself, i, ys) == [i] + ys
  {
    if ys != [] {
      assert ys[0] in ys;
    }
  }

  lemma InsertLater(i: nat, y: nat, ys: seq<nat>)
    requires y < i
    ensures Sorting.Insert(Itself, i, [y] + ys) == [y] + Sorting.Insert(Itself, i, ys)
  {
    assert ([y] + ys)[1..] == ys;
  }

  lemma FirstIsLeast(xs: seq<Outcome>)
    requires xs != [] && Sorting.Sorted(OutcomePosition, xs)
    ensures forall x :: x in xs ==> xs[0].source <= x.source
  {
    forall x | x in xs ensures xs[0].source <= x.source {
      var j :| 0 <= j < |xs| && xs[j] == x;
      assert j > 0 ==> OutcomePosition(xs[0]) <= OutcomePosition(xs[j]);
    }
  }

  lemma {:induction false} BarrenInsert(o: Outcome, xs: seq<Outcome>)
    requires Sorting.Sorted(OutcomePosition, xs)
    ensures BarrenSources(Sorting.Insert(OutcomePosition, o, xs))
         == if Barren(o) then Sorting.Insert(Itself, o.source, BarrenSources(xs)) else BarrenSources(xs)
  {
    if xs == [] || o.source <= xs[0].source {
      BarrenPrepend(o, xs);
      if xs != [] {
        FirstIsLeast(xs);
      }
      BarrenAtLeast(o.source, xs);
      InsertFirst(o.source, BarrenSources(xs));
    } else {
      BarrenInsert(o, xs[1..]);
      BarrenPrepend(xs[0], Sorting.Insert(OutcomePosition, o, xs[1..]));
      InsertLater(o.source, xs[0].source, BarrenSources(xs[1..]));
      if !Barren(xs[0]) {
        assert BarrenSources(xs) == BarrenSources(xs[1..]);
      }
    }
  }

  lemma {:induction false} BarrenSort(xs: seq<Outcome>)
    ensures BarrenSources(Sorting.Sort(OutcomePosition, xs)) == Sorting.Sort(Itself, BarrenSources(xs))
  {
    if xs != [] {
      BarrenSort(xs[1..]);
      Sorting.Stable(OutcomePosition, xs[1..]);
      BarrenInsert(xs[0], Sorting.Sort(OutcomePosition, xs[1..]));
      if Barren(xs[0]) {
        assert BarrenSources(xs)[1..] == BarrenSources(xs[1..]);
      } else {
        assert BarrenSources(xs) == BarrenSources(xs[1..]);
      }
    }
  }

  lemma {:induction false} NotReachedAreBarren(xs: seq<Outcome>)
    requires forall o :: o in xs ==> Barren(o)
    ensures HoleSources(NotReachedHoles(xs)) == BarrenSources(xs)
  {
    if xs != [] {
      assert xs[0] in xs;
      NotReachedAreBarren(xs[1..]);
      assert NotReachedHoles(xs)[1..] == NotReachedHoles(xs[1..]);
    }
  }

  /** When exactly the first sources ran, the closing loop reports each of the others, in order, as empty. */
  lemma {:induction false} NeverRanIsTheRest(cfg: Config, ran: set<nat>, i: nat, next: nat)
    requires i <= cfg.sources && next <= cfg.sources
    requires forall k: nat :: k in ran <==> k < next
    ensures var xs := NeverRan(cfg, ran, i);
            && |xs| == cfg.sources - Max(i, next)
            && (forall k :: 0 <= k < |xs| ==> xs[k] == Outcome(Max(i, next) + k, Skipped, 0, 0, 0, 0, 0, 0))
    decreases cfg.sources - i
  {
    if i < cfg.sources {
      NeverRanIsTheRest(cfg, ran, i + 1, next);
    }
  }

  // ---- The theorems ----

  /** A pool at rest: the totals are the outcomes', and it ran out of sources or stopped. */
  ghost predicate AtRest(cfg: Config, s: Pool)
  {
    && Sound(cfg, s) && PoolDone(s)
    && s.books.totalWritten == Sum(WrittenIn, s.outcomes) && s.books.totalSeen == Sum(SeenIn, s.outcomes)
    && (s.books.next == cfg.sources || !s.books.stop.NotStopped?)
  }

  predicate Blank(o: Outcome, source: nat) { o == Outcome(source, Skipped, 0, 0, 0, 0, 0, 0) }

  /** The closing loop reports exactly the sources that were never taken, in order, as blank. */
  lemma MissingAreTheRest(cfg: Config, s: Pool)
    requires AtRest(cfg, s)
    ensures |Missing(cfg, s)| == cfg.sources - s.books.next
    ensures forall k :: 0 <= k < |Missing(cfg, s)| ==> Blank(Missing(cfg, s)[k], s.books.next + k)
  {
    var sorted := Sorting.Sort(OutcomePosition, s.outcomes);
    var ran := set o | o in sorted :: o.source;
    OutcomesInRegistryOrder(cfg, s);
    forall k: nat ensures k in ran <==> k < s.books.next {
      if k < s.books.next {
        assert sorted[k] in sorted;
      }
    }
    NeverRanIsTheRest(cfg, ran, 0, s.books.next);
  }

  lemma ConcludesInOrder(cfg: Config, s: Pool)
    requires AtRest(cfg, s)
    ensures var r := Conclude(cfg, s);
            |r.outcomes| == cfg.sources && forall i :: 0 <= i < cfg.sources ==> r.outcomes[i].source == i
  {
    OutcomesInRegistryOrder(cfg, s);
    MissingAreTheRest(cfg, s);
  }

  lemma ConcludesHoles(cfg: Config, s: Pool)
    requires AtRest(cfg, s)
    ensures HoleSources(Conclude(cfg, s).holes) == BarrenSources(Conclude(cfg, s).outcomes)
  {
    var missing := Missing(cfg, s);
    MissingAreTheRest(cfg, s);
    HoleSourcesSort(s.holes);
    BarrenSort(s.outcomes);
    NotReachedAreBarren(missing);
    HoleAppend(Sorting.Sort(HolePosition, s.holes), NotReachedHoles(missing));
    BarrenAppend(Sorting.Sort(OutcomePosition, s.outcomes), missing);
  }

  lemma ConcludesTotals(cfg: Config, s: Pool)
    requires AtRest(cfg, s)
    ensures var r := Conclude(cfg, s);
            r.totalWritten == Sum(WrittenIn, r.outcomes) && r.totalSeen == Sum(SeenIn, r.outcomes)
  {
    var sorted, missing := Sorting.Sort(OutcomePosition, s.outcomes), Missing(cfg, s);
    MissingAreTheRest(cfg, s);
    Sorting.SumSort(WrittenIn, OutcomePosition, s.outcomes);
    Sorting.SumSort(SeenIn, OutcomePosition, s.outcomes);
    SumAppend(WrittenIn, sorted, missing);
    SumAppend(SeenIn, sorted, missing);
    SumZero(WrittenIn, missing);
    SumZero(SeenIn, missing);
  }

  /** Every source is reported exactly once, in registry order, whatever failed and whatever stopped the run. */
  lemma EverySourceReportedOnce(cfg: Config, acts: seq<Action>)
    requires Run(cfg, acts).Some? && PoolDone(Run(cfg, acts).value)
    ensures var r := Conclude(cfg, Run(cfg, acts).value);
            |r.outcomes| == cfg.sources && forall i :: 0 <= i < cfg.sources ==> r.outcomes[i].source == i
    ensures var r := Conclude(cfg, Run(cfg, acts).value);
            HoleSources(r.holes) == BarrenSources(r.outcomes)
    ensures var r := Conclude(cfg, Run(cfg, acts).value);
            r.totalWritten == Sum(WrittenIn, r.outcomes) && r.totalSeen == Sum(SeenIn, r.outcomes)
    ensures var r := Conclude(cfg, Run(cfg, acts).value);
            r.stop.NotStopped? ==> r.totalWritten < cfg.maxTotal
  {
    var s := Run(cfg, acts).value;
    RunSound(cfg, acts);
    RestingBooks(cfg, acts);
    ConcludesInOrder(cfg, s);
    ConcludesHoles(cfg, s);
    ConcludesTotals(cfg, s);
  }

  /** The cap is hard in these configurations, while no write and no close fails. */
  predicate CapIsHard(cfg: Config)
  {
    Ordered(cfg) || cfg.maxQueries == 0
  }

  lemma HardCap(cfg: Config, acts: seq<Action>)
    requires CapIsHard(cfg) && Run(cfg, acts).Some? && Smooth(acts)
    ensures Run(cfg, acts).value.books.totalWritten <= cfg.maxTotal
  {
    var s := Run(cfg, acts).value;
    RunInv(cfg, acts);
    PromiseCoversBatches(cfg, s, 0);
    if cfg.maxQueries == 0 {
      NothingAsked(cfg, s);
    }
  }

  lemma NothingAsked(cfg: Config, s: Pool)
    requires Sound(cfg, s) && cfg.maxQueries == 0
    ensures s.books.totalWritten == 0
  {
    SumZero(WrittenBy, s.workers);
    SumZero(WrittenIn, s.outcomes);
  }

  /**
    No starvation. With room for one record per source, whoever is taken next is promised at least its share,
    whatever fails; and while no write and no close fails the cap never leaves a source untaken: only the clock
    or the caller can.
   */
  lemma NoSourceStarves(cfg: Config, acts: seq<Action>)
    requires Run(cfg, acts).Some? && cfg.sources <= cfg.maxTotal
    ensures var b := Run(cfg, acts).value.books;
            b.next < cfg.sources ==> Budget(cfg, b) >= Min(cfg.maxPerSource, Share(cfg))
    ensures cfg.sources > 0 ==> Share(cfg) >= 1
    ensures var s := Run(cfg, acts).value;
            Smooth(acts) && PoolDone(s) && s.books.next < cfg.sources
            ==> s.books.stop.Deadline? || s.books.stop.Cancelled?
  {
    var s := Run(cfg, acts).value;
    RunSound(cfg, acts);
    if s.books.next < cfg.sources {
      BudgetShares(cfg, s.books);
    }
    if cfg.sources > 0 {
      ShareFits(cfg.maxTotal, cfg.sources);
    }
    if PoolDone(s) && Smooth(acts) {
      RestingBooks(cfg, acts);
      RunInv(cfg, acts);
    }
  }
}
